# ModSecurity path gate, modelled in Dafny

`ModSecurity` (core/config/mod_security.h) decides whether code running as a third-party mod may
reach a resource path. It keeps two flags: a per-thread marker "mod code is running now" and a
process-wide switch "restrictions enabled". Restrictions apply only when both are set. In that
state the lower-cased path is tested against first-match-wins prefix rules:
- `res://` and `uid://` are denied;
- `user://mods` and everything under `user://mods/` are allowed;
- every other `user://` path is denied;
- anything else is denied.
A separate formatter builds the denial message.

The project has two modules:

- `AsciiCase` (ascii_case.dfy): lower-casing on `seq<char>`. `A`–`Z` become `a`–`z` and every
  other character is unchanged. The module also has the predicate `EqualsIgnoringCase` and the
  facts that link the two.
- `Config` (mod_security.dfy): the class `ModSecurity`. Its two `bool` fields stand for the two
  statics. The setters are methods that modify `this`. `AreRestrictionsEnabled`,
  `IsInModContext` and `IsPathAllowed` are functions that read the fields.
  `GetAccessDeniedMessage` is a static function. Lemmas state the gate's security properties,
  both in general and on concrete example paths.

The query members are Dafny functions, so they cannot change either flag. A setter's
`ensures` gives both fields after the call: its own flag takes the argument and the other keeps
its old value. The getters `AreRestrictionsEnabled` and `IsInModContext` read the fields. Each states a
necessary condition of the effective context; the full conjunction is `ModContextNeedsBothFlags`.

## Model

| member | source | states |
|---|---|---|
| AsciiCase.LowerChar | core/config/mod_security.h:68 | an upper-case ASCII letter moves to its lower-case form, any other character is unchanged, and the result is never an upper-case letter |
| AsciiCase.ToLower | core/config/mod_security.h:68 | the lower-cased path has the same length, and each character is the lower-case form of the character at the same position |
| AsciiCase.EqualsIgnoringCaseIff | core/config/mod_security.h:68 | two paths are equal ignoring case exactly when their lower-case forms are equal |
| AsciiCase.LowerPrefixIff | core/config/mod_security.h:71-81 | a lower-case literal begins the lower-cased path exactly when the path's leading characters equal it, ignoring case |
| Config.ModSecurity.constructor | core/config/mod_security.h:38-39 | both flags start out false, so nothing is restricted |
| Config.ModSecurity.SetRestrictionsEnabled | core/config/mod_security.h:43-49 | overwrites the switch with the argument, so the getter then returns it; leaves the marker unchanged; the effective context becomes old marker and new switch |
| Config.ModSecurity.SetModContext | core/config/mod_security.h:51-58 | overwrites the marker with the argument; leaves the switch unchanged; the effective context becomes new marker and old switch |
| Config.ModSecurity.AreRestrictionsEnabled | core/config/mod_security.h:47-49 | returns the switch; when it is off there is no mod context, whatever the marker says |
| Config.ModSecurity.IsInModContext | core/config/mod_security.h:56-58 | the effective context implies both the marker and the switch are set (the converse is ModContextNeedsBothFlags) |
| Config.ModContextNeedsBothFlags | core/config/mod_security.h:56-58 | the effective context holds exactly when marker and switch are both set; either flag alone gives no context |
| Config.ModSecurity.IsPathAllowed | core/config/mod_security.h:61-87 | outside mod context every path is allowed; in mod context a path is allowed if and only if its lower-case form is `user://mods` or begins with `user://mods/` (all other rules deny) |
| Config.OutsideModContextAllowsAll | core/config/mod_security.h:61-65 | with the marker clear or the switch off, every path is allowed |
| Config.ReservedSchemeDenied | core/config/mod_security.h:70-73 | in mod context a path whose lower-case form begins with `res://` or `uid://` is denied, so the allow rule can never override it |
| Config.ReservedSchemeDeniedAnyCase | core/config/mod_security.h:67-73 | in mod context a path whose first six characters equal `res://` or `uid://` ignoring case (`RES://`, `Uid://`) is denied |
| Config.InModContextAllowedIff | core/config/mod_security.h:67-86 | deny by default, both directions: in mod context a path is allowed exactly when it equals `user://mods` or begins with `user://mods/`, both compared on the raw path ignoring case |
| Config.ModsSubtreeAllowedAnyCase | core/config/mod_security.h:75-78 | in mod context every path beginning with `user://mods/` in any case is allowed |
| Config.ModsDirAllowedAnyCase | core/config/mod_security.h:75-78 | in mod context the path `user://mods` in any case is allowed |
| Config.DivergesFromModsDirDenied | core/config/mod_security.h:75-86 | in mod context a path that differs from `user://mods` at some position within its first eleven characters, ignoring case, is denied |
| Config.ShortPathDenied | core/config/mod_security.h:75-86 | in mod context a path shorter than `user://mods` is denied, the empty path included |
| Config.LookAlikeDenied | core/config/mod_security.h:75-86 | in mod context `user://mods` followed by any character other than `/` (`user://modsX`) is denied |
| Config.OtherUserDataDenied | core/config/mod_security.h:80-83 | in mod context a `user://` path outside the mods directory is denied |
| Config.NonUserPathDenied | core/config/mod_security.h:85-86 | in mod context a path that does not begin with `user://` (a filesystem path, another scheme) is denied |
| Config.DecisionIgnoresCase | core/config/mod_security.h:68 | two paths equal up to ASCII case always get the same decision |
| Config.ResourcePathDenied | core/config/mod_security.h:70-73 | `res://icon.png` is denied in mod context |
| Config.UidPathDenied | core/config/mod_security.h:70-73 | `uid://abc123` is denied in mod context |
| Config.UpperCaseSchemesDenied | core/config/mod_security.h:67-73 | `RES://x` and `Uid://y` are denied in mod context |
| Config.ModsFileAllowed | core/config/mod_security.h:75-78 | `user://mods/skin.png` is allowed in mod context |
| Config.ModsDirAllowed | core/config/mod_security.h:75-78 | `user://mods` is allowed in mod context |
| Config.ModsDirWithSeparatorAllowed | core/config/mod_security.h:75-78 | `user://mods/` is allowed in mod context |
| Config.MixedCaseModsFileAllowed | core/config/mod_security.h:67-78 | `USER://Mods/Skin.png` is allowed in mod context |
| Config.UserConfigDenied | core/config/mod_security.h:80-83 | `user://config.cfg` is denied in mod context |
| Config.UserSaveDenied | core/config/mod_security.h:80-83 | `user://saves/data.sav` is denied in mod context |
| Config.ModsLookAlikeDenied | core/config/mod_security.h:75-83 | `user://modsX` is denied in mod context |
| Config.FilesystemAndEmptyDenied | core/config/mod_security.h:85-86 | `/etc/passwd` and the empty path are denied in mod context |
| Config.ResourceAllowedOutsideModContext | core/config/mod_security.h:56-65 | `res://icon.png` is allowed when the marker is clear or restrictions are off |
| Config.ModSecurity.GetAccessDeniedMessage | core/config/mod_security.h:89-92 | the message is the fixed prefix, then the path exactly as given (not lower-cased), then the fixed suffix naming `user://mods/` |
| Config.MessageContainsPath | core/config/mod_security.h:89-92 | the message always contains the path verbatim |
| Config.MessageDeterminesPath | core/config/mod_security.h:89-92 | different paths give different messages, so the message identifies the path |

## Left out

- `thread_local` storage for the marker, and cross-thread visibility of the switch (lines 38-39). One object models the view of a single execution unit: the marker is an ordinary field and concurrency is not modelled.
- `String::to_lower`, `begins_with`, `==` and `vformat` come from core/string/ustring.h, which is not part of this model. Lower-casing is ASCII only (`A`–`Z`), so full Unicode case mapping is not captured. Prefix tests are sequence prefixes and equality is sequence equality. Formatting the single `%s` is concatenation.
- Scoped set-and-restore of the marker around mod calls. No such code exists in core/config/mod_security.h; it belongs to the host.
