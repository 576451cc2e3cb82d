/** GingerTemplate.Core.Services.ConfigurationService: looking up values and
    sections in a tree of JSON values by colon-separated keys. JSON values are
    an abstract datatype here, and deserialisation a partial function passed
    in by the caller (`None` for a null result or a failed conversion). */
module Configuration {
  import opened Base

  /** A JSON value, as a `JsonElement` exposes it. */
  datatype Json =
    | JNull
    | JBool(b: bool)
    | JNumber(n: int)
    | JString(s: string)
    | JArray(items: seq<Json>)
    | JObject(properties: map<string, Json>)

  /** `key.Split(':', StringSplitOptions.RemoveEmptyEntries)`: the maximal
      runs of characters other than ':'. `current` is the run read so far. */
  function SplitKey(key: string, current: string := ""): (keys: seq<string>)
    ensures forall i :: 0 <= i < |keys| ==> keys[i] != []
    decreases |key|
  {
    if key == [] then (if current == [] then [] else [current])
    else if key[0] == ':' then (if current == [] then [] else [current]) + SplitKey(key[1..])
    else SplitKey(key[1..], current + [key[0]])
  }

  function Concat(parts: seq<string>): string {
    if parts == [] then [] else parts[0] + Concat(parts[1..])
  }

  function WithoutColons(s: string): string {
    if s == [] then [] else (if s[0] == ':' then [] else [s[0]]) + WithoutColons(s[1..])
  }

  predicate IsSegment(s: string) {
    s != [] && ':' !in s
  }

  /** The segments are non-empty, hold no ':', and together spell the key
      with its colons removed. */
  lemma SplitKeySegments(key: string, current: string)
    requires ':' !in current
    ensures forall i :: 0 <= i < |SplitKey(key, current)| ==> IsSegment(SplitKey(key, current)[i])
    ensures Concat(SplitKey(key, current)) == current + WithoutColons(key)
  {
    SplitKeyNoColons(key, current);
    SplitKeyConcat(key, current);
  }

  lemma {:induction false} SplitKeyNoColons(key: string, current: string)
    requires ':' !in current
    ensures forall i :: 0 <= i < |SplitKey(key, current)| ==> ':' !in SplitKey(key, current)[i]
    decreases |key|
  {
    if key == [] {
    } else if key[0] == ':' {
      SplitKeyNoColons(key[1..], "");
    } else {
      SplitKeyNoColons(key[1..], current + [key[0]]);
    }
  }

  lemma {:induction false} SplitKeyConcat(key: string, current: string)
    ensures Concat(SplitKey(key, current)) == current + WithoutColons(key)
    decreases |key|
  {
    if key == [] {
      assert current + WithoutColons(key) == current;
      ConcatOfRun(current);
    } else if key[0] == ':' {
      SplitKeyConcat(key[1..], "");
      ColonStep(key, current);
    } else {
      SplitKeyConcat(key[1..], current + [key[0]]);
      assert current + WithoutColons(key) == (current + [key[0]]) + WithoutColons(key[1..]);
    }
  }

  /** The run read so far, as a list of at most one segment, spells itself. */
  lemma ConcatOfRun(current: string)
    ensures Concat(if current == [] then [] else [current]) == current
  {
    if current != [] {
      assert Concat([current]) == current + Concat([]);
    }
  }

  lemma ColonStep(key: string, current: string)
    requires key != [] && key[0] == ':'
    requires Concat(SplitKey(key[1..])) == WithoutColons(key[1..])
    ensures Concat(SplitKey(key, current)) == current + WithoutColons(key)
  {
    var head: seq<string> := if current == [] then [] else [current];
    var rest := SplitKey(key[1..]);
    assert SplitKey(key, current) == head + rest;
    assert WithoutColons(key) == [] + WithoutColons(key[1..]) == WithoutColons(key[1..]);
    ConcatAppend(head, rest);
    ConcatOfRun(current);
  }

  lemma {:induction false} ConcatAppend(a: seq<string>, b: seq<string>)
    ensures Concat(a + b) == Concat(a) + Concat(b)
    decreases |a|
  {
    if a == [] {
      assert a + b == b;
    } else {
      assert (a + b)[1..] == a[1..] + b;
      ConcatAppend(a[1..], b);
    }
  }

  /** A ':' ends the segment being read: what precedes it and what follows it
      are split independently. */
  lemma {:induction false} SplitAtColon(a: string, b: string, current: string)
    ensures SplitKey(a + [':'] + b, current) == SplitKey(a, current) + SplitKey(b)
    decreases |a|
  {
    if a == [] {
      assert a + [':'] + b == [':'] + b;
      assert ([':'] + b)[1..] == b;
    } else {
      assert (a + [':'] + b)[0] == a[0];
      assert (a + [':'] + b)[1..] == a[1..] + [':'] + b;
      if a[0] == ':' {
        SplitAtColon(a[1..], b, "");
      } else {
        SplitAtColon(a[1..], b, current + [a[0]]);
      }
    }
  }

  /** A key without colons is a single segment. */
  lemma {:induction false} SegmentSplitsToItself(s: string, current: string)
    requires ':' !in s
    ensures SplitKey(s, current) == if current + s == [] then [] else [current + s]
    decreases |s|
  {
    if s == [] {
      assert current + s == current;
    } else {
      assert current + s == (current + [s[0]]) + s[1..];
      SegmentSplitsToItself(s[1..], current + [s[0]]);
    }
  }

  /** A segment comes back whole. */
  lemma SplitSegment(s: string)
    requires IsSegment(s)
    ensures SplitKey(s) == [s]
  {
    SegmentSplitsToItself(s, "");
    assert "" + s == s;
  }

  /** A key yields no segment exactly when it is empty or all colons. */
  lemma NoSegmentsIffAllColons(key: string)
    ensures SplitKey(key) == [] <==> WithoutColons(key) == []
  {
    SplitKeySegments(key, "");
    if SplitKey(key) != [] {
      var parts := SplitKey(key);
      assert IsSegment(parts[0]);
      ConcatAppend([parts[0]], parts[1..]);
      assert [parts[0]] + parts[1..] == parts;
      assert Concat([parts[0]]) == parts[0] + Concat([]);
    }
  }

  /** Repeated, leading and trailing colons do not matter. */
  lemma ColonVariants()
    ensures SplitKey("a:b") == ["a", "b"]
    ensures SplitKey("a::b") == ["a", "b"]
    ensures SplitKey(":a:b:") == ["a", "b"]
    ensures SplitKey("") == [] && SplitKey(":::") == []
  {
    assert "" + ['a'] == "a" && "" + ['b'] == "b";
    assert "b"[1..] == "" && "a:b"[1..] == ":b";
    assert SplitKey("b") == SplitKey("", "b") == ["b"];
    assert SplitKey(":b") == SplitKey("b");
    assert SplitKey("a:b") == SplitKey(":b", "a") == ["a"] + SplitKey("b");
    assert SplitKey("a::b") == SplitKey("::b", "a") == ["a"] + SplitKey(":b");
    assert SplitKey(":") == SplitKey("") == [];
    assert SplitKey("b:") == SplitKey(":", "b") == ["b"] + SplitKey("");
    assert SplitKey("a:b:") == SplitKey(":b:", "a") == ["a"] + SplitKey("b:");
    assert SplitKey(":a:b:") == SplitKey("a:b:");
    assert SplitKey("::") == SplitKey(":");
    assert SplitKey(":::") == SplitKey("::");
  }

  /** Descends from `element` along `keys`: every step needs an object that
      has the property. */
  function Walk(element: Json, keys: seq<string>): (r: Option<Json>)
    ensures keys != [] && r.Some? ==> element.JObject? && keys[0] in element.properties
    decreases |keys|
  {
    if keys == [] then Some(element)
    else if !element.JObject? then None
    else if keys[0] !in element.properties then None
    else Walk(element.properties[keys[0]], keys[1..])
  }

  /** The element a key's segments address in the configuration, if any. */
  function Resolve(configuration: map<string, Json>, keys: seq<string>): (r: Option<Json>)
    ensures keys == [] ==> r.None?
    ensures keys != [] && keys[0] !in configuration ==> r.None?
  {
    if keys == [] || keys[0] !in configuration then None
    else Walk(configuration[keys[0]], keys[1..])
  }

  /** A path through a non-object fails at the first step that needs one. */
  lemma {:induction false} WalkThroughScalarFails(element: Json, keys: seq<string>)
    requires keys != [] && !element.JObject?
    ensures Walk(element, keys) == None
  {
  }

  /** Walking one path and then another is walking their concatenation. */
  lemma {:induction false} WalkAppend(element: Json, a: seq<string>, b: seq<string>)
    ensures Walk(element, a + b) == (match Walk(element, a) case None => None case Some(e) => Walk(e, b))
    decreases |a|
  {
    if a != [] {
      assert (a + b)[1..] == a[1..] + b;
      assert (a + b)[0] == a[0];
      if element.JObject? && a[0] in element.properties {
        WalkAppend(element.properties[a[0]], a[1..], b);
      }
    } else {
      assert a + b == b;
    }
  }

  function Deserialized<T>(element: Option<Json>, deserialize: Json -> Option<T>): Option<T> {
    if element.None? then None else deserialize(element.value)
  }

  class ConfigurationService {
    const configuration: map<string, Json>

    /** The constructor from an in-memory dictionary, already converted to
        JSON elements. */
    constructor (configuration: map<string, Json>)
      ensures this.configuration == configuration
    {
      this.configuration := configuration;
    }

    /** What `TryGetValue` finds under `key`. */
    function Lookup<T>(key: string, deserialize: Json -> Option<T>): Option<T> {
      Deserialized(Resolve(configuration, SplitKey(key)), deserialize)
    }

    /** `TryGetValue`: splits the key, finds the first segment among the
        top-level entries, then descends one object property per segment. */
    method TryGetValue<T>(key: string, deserialize: Json -> Option<T>) returns (found: bool, value: Option<T>)
      ensures found <==> value.Some?
      ensures value == Deserialized(Resolve(configuration, SplitKey(key)), deserialize)
    {
      value := None;
      var keys := SplitKey(key);
      if |keys| == 0 {
        return false, None;
      }
      if keys[0] !in configuration {
        return false, None;
      }
      var element := configuration[keys[0]];
      var i := 1;
      while i < |keys|
        invariant 1 <= i <= |keys|
        invariant Walk(element, keys[i..]) == Walk(configuration[keys[0]], keys[1..])
      {
        if !element.JObject? {
          return false, None;
        }
        if keys[i] !in element.properties {
          return false, None;
        }
        assert keys[i..][1..] == keys[i + 1..];
        element := element.properties[keys[i]];
        i := i + 1;
      }
      assert keys[i..] == [];
      value := deserialize(element);
      found := value.Some?;
    }

    /** `GetValue(key)` untyped: null when nothing is found. */
    method GetUntypedValue<T>(key: string, deserialize: Json -> Option<T>) returns (value: Option<T>)
      ensures value == Lookup(key, deserialize)
      ensures SplitKey(key) == [] ==> value.None?
    {
      var found;
      found, value := TryGetValue(key, deserialize);
      if !found {
        value := None;
      }
    }

    /** `GetValue<T>(key, defaultValue)` (and its untyped form): the value
        found, or the default; never throws. */
    method GetValueOrDefault<T>(key: string, defaultValue: T, deserialize: Json -> Option<T>) returns (value: T)
      ensures Lookup(key, deserialize).Some? ==> value == Lookup(key, deserialize).value
      ensures Lookup(key, deserialize).None? ==> value == defaultValue
    {
      var found, v := TryGetValue(key, deserialize);
      value := if found then v.value else defaultValue;
    }

    /** `GetValue<T>(key)`: throws `KeyNotFoundException` exactly when
        `TryGetValue` fails. */
    method GetValue<T>(key: string, deserialize: Json -> Option<T>) returns (r: Result<T>)
      ensures r.Ok? <==> Lookup(key, deserialize).Some?
      ensures r.Ok? ==> r.value == Lookup(key, deserialize).value
      ensures r.Err? ==> r.error.kind == KeyNotFound
    {
      var found, v := TryGetValue(key, deserialize);
      if found {
        return Ok(v.value);
      }
      return Err(Error(KeyNotFound, "Configuration key '" + key + "' not found."));
    }

    /** `TryGetSection`: the name is matched against the top-level entries
        only, without splitting on ':'. */
    method TryGetSection<T>(sectionName: string, deserialize: Json -> Option<T>) returns (found: bool, section: Option<T>)
      ensures found <==> section.Some?
      ensures sectionName !in configuration ==> section.None?
      ensures sectionName in configuration ==> section == deserialize(configuration[sectionName])
    {
      if sectionName !in configuration {
        return false, None;
      }
      section := deserialize(configuration[sectionName]);
      found := section.Some?;
    }

    /** `GetSection`: throws `KeyNotFoundException` exactly when
        `TryGetSection` fails. */
    method GetSection<T>(sectionName: string, deserialize: Json -> Option<T>) returns (r: Result<T>)
      ensures r.Ok? <==> sectionName in configuration && deserialize(configuration[sectionName]).Some?
      ensures r.Ok? ==> r.value == deserialize(configuration[sectionName]).value
      ensures r.Err? ==> r.error.kind == KeyNotFound
    {
      var found, section := TryGetSection(sectionName, deserialize);
      if found {
        return Ok(section.value);
      }
      return Err(Error(KeyNotFound, "Configuration section '" + sectionName + "' not found."));
    }

    /** `GetSectionOrDefault`: the default exactly when `TryGetSection` fails. */
    method GetSectionOrDefault<T>(sectionName: string, defaultValue: T, deserialize: Json -> Option<T>) returns (value: T)
      ensures sectionName in configuration && deserialize(configuration[sectionName]).Some? ==>
                value == deserialize(configuration[sectionName]).value
      ensures !(sectionName in configuration && deserialize(configuration[sectionName]).Some?) ==>
                value == defaultValue
    {
      var found, section := TryGetSection(sectionName, deserialize);
      value := if found then section.value else defaultValue;
    }

    /** `GetKeys`: the names of the top-level entries, each of which
        `TryGetSection` can find when its element deserialises. */
    method GetKeys() returns (keys: set<string>)
      ensures forall k :: k in keys <==> k in configuration
    {
      keys := configuration.Keys;
    }
  }

  /** A key whose segments are `[s]` followed by a path addresses what walking
      that path from the top-level entry `s` reaches. */
  lemma ResolveNested(configuration: map<string, Json>, s: string, path: seq<string>)
    requires s in configuration
    ensures Resolve(configuration, [s] + path) == Walk(configuration[s], path)
  {
    assert ([s] + path)[1..] == path;
  }
}
