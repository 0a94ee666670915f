/** The launch resolver: classifies a shortcut by its type into the action
    the main process should perform, or fails for a type it does not know. */
module Launcher {
  import opened Wrappers
  import opened ConfigStore

  /** The three dispatchable effects. */
  datatype Action = OpenPath | OpenExternal | Exec {
    /** The `action` string sent to the main process. */
    function WireName(): (s: string)
      ensures s == "openPath" <==> this == OpenPath
      ensures s == "openExternal" <==> this == OpenExternal
      ensures s == "exec" <==> this == Exec
    {
      match this
      case OpenPath => "openPath"
      case OpenExternal => "openExternal"
      case Exec => "exec"
    }
  }

  /** `{action, target}`. */
  datatype Command = Command(action: Action, target: string)

  /** The thrown `Error`, which carries the offending type. */
  datatype LaunchError = UnknownShortcutType(kind: string) {
    /** The error's message text. */
    function Message(): (m: string)
      ensures |m| >= 21 && m[..21] == "Unknown shortcut type"
    {
      "Unknown shortcut type: " + kind
    }
  }

  /** The types the resolver accepts. */
  const KnownTypes: set<string> := {"exe", "lnk", "folder", "url", "shell"}

  /** `buildLaunchCommand`: succeeds exactly for the five known types, always
      with the item's path as the target, untouched; exe, lnk and folder open
      a path, url opens externally (whatever the scheme), shell executes. */
  function BuildLaunchCommand(item: Item): (r: Result<Command, LaunchError>)
    ensures r.Ok? <==> item.kind in KnownTypes
    ensures r.Ok? ==> r.value.target == item.path
    ensures r.Ok? ==> (r.value.action == OpenPath <==> item.kind in {"exe", "lnk", "folder"})
    ensures r.Ok? ==> (r.value.action == OpenExternal <==> item.kind == "url")
    ensures r.Ok? ==> (r.value.action == Exec <==> item.kind == "shell")
    ensures r.Err? ==> r.error == UnknownShortcutType(item.kind)
  {
    match item.kind
    case "exe" => Ok(Command(OpenPath, item.path))
    case "lnk" => Ok(Command(OpenPath, item.path))
    case "folder" => Ok(Command(OpenPath, item.path))
    case "url" => Ok(Command(OpenExternal, item.path))
    case "shell" => Ok(Command(Exec, item.path))
    case _ => Err(UnknownShortcutType(item.kind))
  }

  /** Only the type and the path matter: items that agree on both resolve alike. */
  lemma ResolutionIgnoresNameAndIcon(a: Item, b: Item)
    requires a.kind == b.kind && a.path == b.path
    ensures BuildLaunchCommand(a) == BuildLaunchCommand(b)
  {
  }

  /** The resolver's own test table. */
  lemma ResolverTestTable()
    ensures BuildLaunchCommand(Item("", "exe", "C:\\app.exe", "")) == Ok(Command(OpenPath, "C:\\app.exe"))
    ensures BuildLaunchCommand(Item("", "lnk", "C:\\shortcut.lnk", "")) == Ok(Command(OpenPath, "C:\\shortcut.lnk"))
    ensures BuildLaunchCommand(Item("", "url", "https://example.com", "")) == Ok(Command(OpenExternal, "https://example.com"))
    ensures BuildLaunchCommand(Item("", "url", "steam://open/games", "")) == Ok(Command(OpenExternal, "steam://open/games"))
    ensures BuildLaunchCommand(Item("", "folder", "E:\\GenAI", "")) == Ok(Command(OpenPath, "E:\\GenAI"))
    ensures BuildLaunchCommand(Item("", "shell", "wt --profile \"Claude\"", "")) == Ok(Command(Exec, "wt --profile \"Claude\""))
    ensures BuildLaunchCommand(Item("", "exe", "C:\\app.exe", "")).value.action.WireName() == "openPath"
    ensures BuildLaunchCommand(Item("", "url", "https://example.com", "")).value.action.WireName() == "openExternal"
    ensures BuildLaunchCommand(Item("", "shell", "wt --profile \"Claude\"", "")).value.action.WireName() == "exec"
    ensures BuildLaunchCommand(Item("", "unknown", "x", "")).Err?
    ensures BuildLaunchCommand(Item("", "unknown", "x", "")).error.Message()[..21] == "Unknown shortcut type"
  {
  }
}
