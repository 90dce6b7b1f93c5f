/** The path-access gate for code running as a third-party mod
    (core/config/mod_security.h). */
module Config {
  import opened AsciiCase

  /** Packaged game resources: never reachable from mod code. */
  const ResScheme: string := "res://"
  /** Unique resource ids: never reachable from mod code. */
  const UidScheme: string := "uid://"
  /** User data in general. */
  const UserScheme: string := "user://"
  /** The one directory mod code may reach, with and without its separator. */
  const ModsDir: string := "user://mods"
  const ModsDirPrefix: string := "user://mods/"

  const DeniedPrefix: string := "Mod security: Access denied to '"
  const DeniedSuffix: string := "'. Mods can only access 'user://mods/' directory."

  /** The allow-list, stated on an already lower-cased path. */
  predicate InModsDirectory(lower: string) {
    lower == ModsDir || ModsDirPrefix <= lower
  }

  /** The allow-list, stated on the path as given, ignoring ASCII case. */
  predicate InModsDirectoryIgnoringCase(path: string) {
    EqualsIgnoringCase(path, ModsDir)
    || (|ModsDirPrefix| <= |path| && EqualsIgnoringCase(path[..|ModsDirPrefix|], ModsDirPrefix))
  }

  /** The gate as seen by one execution unit: its own mod-context marker and
      the process-wide restrictions switch. */
  class ModSecurity {
    var modContextActive: bool
    var restrictionsEnabled: bool

    /** Both flags start out false. */
    constructor ()
      ensures !modContextActive && !restrictionsEnabled
      ensures !IsInModContext()
    {
      modContextActive := false;
      restrictionsEnabled := false;
    }

    method SetRestrictionsEnabled(enabled: bool)
      modifies this
      ensures restrictionsEnabled == enabled
      ensures modContextActive == old(modContextActive)
      ensures AreRestrictionsEnabled() == enabled
      ensures IsInModContext() == (old(modContextActive) && enabled)
    {
      restrictionsEnabled := enabled;
    }

    /** With the switch off there is no mod context, whatever the marker says. */
    function AreRestrictionsEnabled(): (enabled: bool)
      reads this
      ensures !enabled ==> !IsInModContext()
    {
      restrictionsEnabled
    }

    method SetModContext(active: bool)
      modifies this
      ensures modContextActive == active
      ensures restrictionsEnabled == old(restrictionsEnabled)
      ensures AreRestrictionsEnabled() == old(AreRestrictionsEnabled())
      ensures IsInModContext() == (active && old(restrictionsEnabled))
    {
      modContextActive := active;
    }

    /** Restrictions apply only while mod code runs and the switch is on. */
    function IsInModContext(): (active: bool)
      reads this
      ensures active ==> modContextActive
      ensures active ==> restrictionsEnabled
    {
      modContextActive && restrictionsEnabled
    }

    /** First match wins: reserved schemes are denied, the mods directory is
        allowed, and everything else is denied. */
    function IsPathAllowed(path: string): (allowed: bool)
      reads this
      ensures !IsInModContext() ==> allowed
      ensures IsInModContext() ==> (allowed <==> InModsDirectory(ToLower(path)))
    {
      if !IsInModContext() then
        true
      else
        var lower := ToLower(path);
        if ResScheme <= lower || UidScheme <= lower then
          false
        else if ModsDirPrefix <= lower || lower == ModsDir then
          true
        else if UserScheme <= lower then
          false
        else
          false
    }

    /** The denial text: a fixed prefix, the path exactly as given, a fixed suffix. */
    static function GetAccessDeniedMessage(path: string): (msg: string)
      ensures |msg| == |DeniedPrefix| + |path| + |DeniedSuffix|
      ensures msg[..|DeniedPrefix|] == DeniedPrefix
      ensures msg[|DeniedPrefix|..|DeniedPrefix| + |path|] == path
      ensures msg[|DeniedPrefix| + |path|..] == DeniedSuffix
    {
      DeniedPrefix + path + DeniedSuffix
    }
  }

  /** The effective context is the conjunction of the two flags: either alone is not enough. */
  lemma ModContextNeedsBothFlags(g: ModSecurity)
    ensures g.IsInModContext() <==> g.modContextActive && g.AreRestrictionsEnabled()
    ensures !g.modContextActive ==> !g.IsInModContext()
    ensures !g.restrictionsEnabled ==> !g.IsInModContext()
  {
  }

  /** With the marker clear or the switch off, every path is allowed, reserved schemes included. */
  lemma OutsideModContextAllowsAll(g: ModSecurity, path: string)
    requires !g.modContextActive || !g.restrictionsEnabled
    ensures g.IsPathAllowed(path)
  {
  }

  /** In mod context, a path whose lower-case form starts with a reserved scheme is denied. */
  lemma ReservedSchemeDenied(g: ModSecurity, path: string)
    requires g.IsInModContext()
    requires ResScheme <= ToLower(path) || UidScheme <= ToLower(path)
    ensures !g.IsPathAllowed(path)
  {
  }

  /** The same, stated on the path as given: any spelling of the scheme in any case is denied. */
  lemma ReservedSchemeDeniedAnyCase(g: ModSecurity, path: string)
    requires g.IsInModContext()
    requires |path| >= |ResScheme|
    requires EqualsIgnoringCase(path[..|ResScheme|], ResScheme)
          || EqualsIgnoringCase(path[..|UidScheme|], UidScheme)
    ensures !g.IsPathAllowed(path)
  {
    LowerPrefixIff(path, ResScheme);
    LowerPrefixIff(path, UidScheme);
    ReservedSchemeDenied(g, path);
  }

  /** Deny by default, both directions: in mod context a path is allowed exactly when
      it is the mods directory, or lies under it, ignoring ASCII case. */
  lemma InModContextAllowedIff(g: ModSecurity, path: string)
    requires g.IsInModContext()
    ensures g.IsPathAllowed(path) <==> InModsDirectoryIgnoringCase(path)
  {
    EqualsIgnoringCaseLowercase(path, ModsDir);
    LowerPrefixIff(path, ModsDirPrefix);
  }

  /** User data outside the mods directory is denied (the third rule). */
  lemma OtherUserDataDenied(g: ModSecurity, path: string)
    requires g.IsInModContext()
    requires UserScheme <= ToLower(path)
    requires !InModsDirectory(ToLower(path))
    ensures !g.IsPathAllowed(path)
  {
  }

  /** Any path outside user data, such as a filesystem path or an unknown scheme, is denied
      (the last rule). */
  lemma NonUserPathDenied(g: ModSecurity, path: string)
    requires g.IsInModContext()
    requires !(UserScheme <= ToLower(path))
    ensures !g.IsPathAllowed(path)
  {
  }

  /** A look-alike of the mods directory, one more character that is not the separator, is denied. */
  lemma LookAlikeDenied(g: ModSecurity, path: string)
    requires g.IsInModContext()
    requires |path| > |ModsDir|
    requires EqualsIgnoringCase(path[..|ModsDir|], ModsDir)
    requires LowerChar(path[|ModsDir|]) != '/'
    ensures !g.IsPathAllowed(path)
  {
    InModContextAllowedIff(g, path);
    if |ModsDirPrefix| <= |path| {
      assert path[..|ModsDirPrefix|][|ModsDir|] == path[|ModsDir|];
    }
  }

  /** The decision depends on the path only up to ASCII case. */
  lemma DecisionIgnoresCase(g: ModSecurity, p: string, q: string)
    requires EqualsIgnoringCase(p, q)
    ensures g.IsPathAllowed(p) == g.IsPathAllowed(q)
  {
    EqualsIgnoringCaseIff(p, q);
  }

  /** Everything under the mods directory is allowed, whatever the case of the path. */
  lemma ModsSubtreeAllowedAnyCase(g: ModSecurity, path: string)
    requires g.IsInModContext()
    requires |ModsDirPrefix| <= |path|
    requires EqualsIgnoringCase(path[..|ModsDirPrefix|], ModsDirPrefix)
    ensures g.IsPathAllowed(path)
  {
    LowerPrefixIff(path, ModsDirPrefix);
  }

  /** The mods directory itself is allowed, whatever the case of the path. */
  lemma ModsDirAllowedAnyCase(g: ModSecurity, path: string)
    requires g.IsInModContext()
    requires EqualsIgnoringCase(path, ModsDir)
    ensures g.IsPathAllowed(path)
  {
    EqualsIgnoringCaseLowercase(path, ModsDir);
  }

  /** A path that differs from the mods directory at some character within its length,
      ignoring case, is denied. */
  lemma DivergesFromModsDirDenied(g: ModSecurity, path: string, i: nat)
    requires g.IsInModContext()
    requires i < |ModsDir| && i < |path|
    requires LowerChar(path[i]) != ModsDir[i]
    ensures !g.IsPathAllowed(path)
  {
    assert ToLower(path)[i] != ModsDir[i];
    assert ModsDir[i] == ModsDirPrefix[i];
  }

  /** A path shorter than the mods directory is denied; the empty path among them. */
  lemma ShortPathDenied(g: ModSecurity, path: string)
    requires g.IsInModContext()
    requires |path| < |ModsDir|
    ensures !g.IsPathAllowed(path)
  {
  }

  /** A packaged resource is denied in mod context. */
  lemma ResourcePathDenied(g: ModSecurity)
    requires g.modContextActive && g.restrictionsEnabled
    ensures !g.IsPathAllowed("res://icon.png")
  {
    ReservedSchemeDeniedAnyCase(g, "res://icon.png");
  }

  /** A unique resource id is denied in mod context. */
  lemma UidPathDenied(g: ModSecurity)
    requires g.modContextActive && g.restrictionsEnabled
    ensures !g.IsPathAllowed("uid://abc123")
  {
    ReservedSchemeDeniedAnyCase(g, "uid://abc123");
  }

  /** Reserved schemes written in upper or mixed case are denied in mod context. */
  lemma UpperCaseSchemesDenied(g: ModSecurity)
    requires g.modContextActive && g.restrictionsEnabled
    ensures !g.IsPathAllowed("RES://x") && !g.IsPathAllowed("Uid://y")
  {
    ReservedSchemeDeniedAnyCase(g, "RES://x");
    ReservedSchemeDeniedAnyCase(g, "Uid://y");
  }

  /** A file in the mods directory is allowed in mod context. */
  lemma ModsFileAllowed(g: ModSecurity)
    requires g.modContextActive && g.restrictionsEnabled
    ensures g.IsPathAllowed("user://mods/skin.png")
  {
    ModsSubtreeAllowedAnyCase(g, "user://mods/skin.png");
  }

  /** The mods directory itself is allowed. */
  lemma ModsDirAllowed(g: ModSecurity)
    requires g.modContextActive && g.restrictionsEnabled
    ensures g.IsPathAllowed("user://mods")
  {
    ModsDirAllowedAnyCase(g, "user://mods");
  }

  /** The mods directory with its trailing separator is allowed. */
  lemma ModsDirWithSeparatorAllowed(g: ModSecurity)
    requires g.modContextActive && g.restrictionsEnabled
    ensures g.IsPathAllowed("user://mods/")
  {
    ModsSubtreeAllowedAnyCase(g, "user://mods/");
  }

  /** A mixed-case spelling of a file in the mods directory is allowed. */
  lemma MixedCaseModsFileAllowed(g: ModSecurity)
    requires g.modContextActive && g.restrictionsEnabled
    ensures g.IsPathAllowed("USER://Mods/Skin.png")
  {
    ModsSubtreeAllowedAnyCase(g, "USER://Mods/Skin.png");
  }

  /** A configuration file in user data, outside the mods directory, is denied in mod context. */
  lemma UserConfigDenied(g: ModSecurity)
    requires g.modContextActive && g.restrictionsEnabled
    ensures !g.IsPathAllowed("user://config.cfg")
  {
    DivergesFromModsDirDenied(g, "user://config.cfg", 7);
  }

  /** A save file in user data, outside the mods directory, is denied in mod context. */
  lemma UserSaveDenied(g: ModSecurity)
    requires g.modContextActive && g.restrictionsEnabled
    ensures !g.IsPathAllowed("user://saves/data.sav")
  {
    DivergesFromModsDirDenied(g, "user://saves/data.sav", 7);
  }

  /** The look-alike `user://modsX` is denied in mod context. */
  lemma ModsLookAlikeDenied(g: ModSecurity)
    requires g.modContextActive && g.restrictionsEnabled
    ensures !g.IsPathAllowed("user://modsX")
  {
    LookAlikeDenied(g, "user://modsX");
  }

  /** A filesystem path and the empty path are denied in mod context. */
  lemma FilesystemAndEmptyDenied(g: ModSecurity)
    requires g.modContextActive && g.restrictionsEnabled
    ensures !g.IsPathAllowed("/etc/passwd") && !g.IsPathAllowed("")
  {
    DivergesFromModsDirDenied(g, "/etc/passwd", 0);
  }

  /** With the marker clear, or with restrictions off, a packaged resource is allowed. */
  lemma ResourceAllowedOutsideModContext(g: ModSecurity)
    requires !g.modContextActive || !g.restrictionsEnabled
    ensures g.IsPathAllowed("res://icon.png")
  {
    OutsideModContextAllowsAll(g, "res://icon.png");
  }

  /** The message holds the path verbatim, not lower-cased. */
  lemma MessageContainsPath(path: string)
    ensures exists k | 0 <= k <= |ModSecurity.GetAccessDeniedMessage(path)| ::
              path <= ModSecurity.GetAccessDeniedMessage(path)[k..]
  {
    var msg := ModSecurity.GetAccessDeniedMessage(path);
    assert path <= msg[|DeniedPrefix|..];
  }

  /** Different paths give different messages, so the path can be read back. */
  lemma MessageDeterminesPath(p: string, q: string)
    requires ModSecurity.GetAccessDeniedMessage(p) == ModSecurity.GetAccessDeniedMessage(q)
    ensures p == q
  {
    var m := ModSecurity.GetAccessDeniedMessage(p);
    assert |p| == |q|;
    assert p == m[|DeniedPrefix|..|DeniedPrefix| + |p|] == q;
  }
}
