/** GingerTemplate.Core.Services.PluginService: an append-only record of the
    plugin paths loaded so far. The lock around it is not modelled. */
module Plugins {
  class PluginService {
    /** The loaded paths, in load order. */
    var loadedPlugins: seq<string>

    constructor ()
      ensures loadedPlugins == []
    {
      loadedPlugins := [];
    }

    /** `LoadPlugin`: appends the path, duplicates included. */
    method LoadPlugin(pluginPath: string)
      modifies this
      ensures loadedPlugins == old(loadedPlugins) + [pluginPath]
    {
      loadedPlugins := loadedPlugins + [pluginPath];
    }

    /** `GetLoadedPlugins`: the paths in load order, as a copy the service
        keeps no handle on. */
    method GetLoadedPlugins() returns (plugins: seq<string>)
      ensures plugins == loadedPlugins
    {
      plugins := loadedPlugins;
    }
  }

  /** Loading a path twice lists it twice; a list read before a load is not
      changed by it. */
  method LoadTwiceListsTwice(path: string) returns (before: seq<string>, after: seq<string>)
    ensures before == [path]
    ensures after == [path, path]
  {
    var service := new PluginService();
    service.LoadPlugin(path);
    before := service.GetLoadedPlugins();
    service.LoadPlugin(path);
    after := service.GetLoadedPlugins();
  }
}
