/** GingerTemplate.Core.Services.ThemeManagementService: one overwritable
    theme name. The lock around it is not modelled. */
module Themes {
  const DefaultTheme := "Default"

  class ThemeManagementService {
    var currentTheme: string

    constructor ()
      ensures currentTheme == DefaultTheme
    {
      currentTheme := DefaultTheme;
    }

    /** `ApplyTheme`: any name is accepted and replaces the current one. */
    method ApplyTheme(themeName: string)
      modifies this
      ensures currentTheme == themeName
    {
      currentTheme := themeName;
    }

    /** `GetCurrentTheme`: reads the theme and changes nothing. */
    method GetCurrentTheme() returns (theme: string)
      ensures theme == currentTheme
    {
      theme := currentTheme;
    }
  }

  /** A fresh service reports "Default"; after two applications the last
      one wins, whatever the names are. */
  method LastWriteWins(first: string, second: string) returns (initial: string, current: string)
    ensures initial == DefaultTheme
    ensures current == second
  {
    var service := new ThemeManagementService();
    initial := service.GetCurrentTheme();
    service.ApplyTheme(first);
    service.ApplyTheme(second);
    current := service.GetCurrentTheme();
  }
}
