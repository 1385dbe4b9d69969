/**
  Choosing the Python interpreter that runs a wrapper script: `pickPythonCmd` of the
  codecarbon and carbontracker extensions, and `getVsCodePythonSetting` / `resolvePython` of
  the eco2ai and tracarbon extensions. `fs.existsSync` is the parameter `isFile` and
  `process.platform === 'win32'` is `isWin`.
 */
module ExtensionPython {
  import opened Wrappers
  import opened Text
  import opened Search

  /** The names `pickPythonCmd` returns without looking at the file system. */
  predicate IsBareName(p: string) {
    p == "py" || p == "python3" || p == "python"
  }

  /** The platform's bare interpreter name: the `py` launcher on Windows, `python3` elsewhere. */
  function BareFallback(isWin: bool): (r: string)
    ensures IsBareName(r) && r != "python"
  {
    if isWin then "py" else "python3"
  }

  /** `path.join`'s separator on the platform. */
  function Sep(isWin: bool): string {
    if isWin then "\\" else "/"
  }

  /** The two venv interpreters under the workspace root, in the order `pickPythonCmd` tries
      them; none when the root is missing or empty. */
  function RootVenvs(root: Option<string>, isWin: bool): (r: seq<string>)
    ensures root.None? || root == Some("") ==> r == []
    ensures |r| == 0 || |r| == 2
  {
    if root.Some? && root.value != "" then
      var tail := if isWin then "Scripts\\python.exe" else "bin/python";
      [root.value + Sep(isWin) + ".venv" + Sep(isWin) + tail,
       root.value + Sep(isWin) + "venv" + Sep(isWin) + tail]
    else []
  }

  /** A venv path is never one of the bare names: it is longer than all of them. */
  lemma LemmaVenvNotBare(root: Option<string>, isWin: bool, i: nat)
    requires i < |RootVenvs(root, isWin)|
    ensures !IsBareName(RootVenvs(root, isWin)[i])
  {
    assert |RootVenvs(root, isWin)[i]| > 7;
  }

  /** `pickPythonCmd(root)`: scans the venv paths and then the fallbacks
      `[py|python3, 'python']`, returning a bare name at once and a path when it exists.
      The result is the first existing venv, else the platform's bare name; the trailing
      `'python'` fallback is never returned. */
  method PickPythonCmd(root: Option<string>, isWin: bool, isFile: string -> bool) returns (cmd: string)
    ensures cmd == FirstWhere(RootVenvs(root, isWin), isFile).GetOr(BareFallback(isWin))
    ensures cmd != "python"
    ensures root.None? || root == Some("") ==> cmd == BareFallback(isWin)
  {
    var venvs := RootVenvs(root, isWin);
    var cands := venvs + [BareFallback(isWin), "python"];
    for i := 0 to |cands|
      invariant i <= |venvs|
      invariant forall j :: 0 <= j < i ==> !isFile(venvs[j])
    {
      var p := cands[i];
      if p == "py" || p == "python3" || p == "python" {
        if i < |venvs| {
          LemmaVenvNotBare(root, isWin, i);
        }
        assert i == |venvs|;
        return p;
      }
      if isFile(p) {
        assert i < |venvs|;
        var w := FirstWhere(venvs, isFile);
        assert w.Some? && w.value == p by {
          var k :| 0 <= k < |venvs| && venvs[k] == w.value && isFile(venvs[k])
                   && forall j :: 0 <= j < k ==> !isFile(venvs[j]);
          assert k == i;
        }
        return p;
      }
    }
    return "python";
  }

  /** `getVsCodePythonSetting`: `python.defaultInterpreterPath` when it is set, not empty and
      exists, otherwise `python.pythonPath` under the same conditions, otherwise nothing. */
  function PythonSetting(v1: Option<string>, v0: Option<string>, isFile: string -> bool): (r: Option<string>)
    ensures r.Some? ==> r.value != "" && isFile(r.value) && (r == v1 || r == v0)
    ensures v1.Some? && v1.value != "" && isFile(v1.value) ==> r == v1
    ensures !(v1.Some? && v1.value != "" && isFile(v1.value)) && v0.Some? && v0.value != "" && isFile(v0.value) ==>
              r == v0
    ensures r.None? <==> !(v1.Some? && v1.value != "" && isFile(v1.value))
                         && !(v0.Some? && v0.value != "" && isFile(v0.value))
  {
    if v1.Some? && v1.value != "" && isFile(v1.value) then v1
    else if v0.Some? && v0.value != "" && isFile(v0.value) then v0
    else None
  }

  /** An interpreter command and its leading arguments. */
  datatype Interp = Interp(cmd: string, args: seq<string>)

  /** The interpreter used when neither a setting nor a venv is found. */
  function PlatformInterp(isWin: bool): Interp {
    if isWin then Interp("py", ["-3"]) else Interp("python3", [])
  }

  /** `path.join(ws, ...parts)` for plain segments: an empty workspace gives a relative path. */
  function PathJoin(ws: string, parts: seq<string>, sep: string): string {
    if ws == "" then Join(parts, sep) else ws + sep + Join(parts, sep)
  }

  /** The four venv candidates of `resolvePython`, in the order they are tried. */
  function WorkspaceVenvs(ws: string, isWin: bool): (r: seq<string>)
    ensures |r| == 4
  {
    [PathJoin(ws, [".venv", "Scripts", "python.exe"], Sep(isWin)),
     PathJoin(ws, ["venv", "Scripts", "python.exe"], Sep(isWin)),
     PathJoin(ws, [".venv", "bin", "python"], Sep(isWin)),
     PathJoin(ws, ["venv", "bin", "python"], Sep(isWin))]
  }

  /** `resolvePython`: the interpreter setting when there is one, else the first existing venv
      candidate (of the filtered list), else `py -3` on Windows and `python3` elsewhere. */
  function ResolvePython(ws: string, setting: Option<string>, isWin: bool, isFile: string -> bool): (r: Interp)
    ensures setting.Some? && setting.value != "" ==> r == Interp(setting.value, [])
    ensures !(setting.Some? && setting.value != "") && FirstWhere(WorkspaceVenvs(ws, isWin), isFile).Some? ==>
              r == Interp(FirstWhere(WorkspaceVenvs(ws, isWin), isFile).value, [])
    ensures !(setting.Some? && setting.value != "") && FirstWhere(WorkspaceVenvs(ws, isWin), isFile).None? ==>
              r == PlatformInterp(isWin)
  {
    if setting.Some? && setting.value != "" then Interp(setting.value, [])
    else
      var venvs := Filter(WorkspaceVenvs(ws, isWin), isFile);
      if |venvs| > 0 then Interp(venvs[0], [])
      else PlatformInterp(isWin)
  }

  /** `` `${cmd} ${args.join(' ')}`.trim() ``. */
  function InterpInfo(i: Interp): string {
    JsTrim(i.cmd + " " + Join(i.args, " "))
  }

  /** A command without arguments and without white space at either end is shown as is: the
      space added before the empty argument list is trimmed away. */
  lemma LemmaInterpInfoPlain(cmd: string)
    requires cmd != [] && !IsJsSpace(cmd[0]) && !IsJsSpace(cmd[|cmd| - 1])
    ensures InterpInfo(Interp(cmd, [])) == cmd
  {
    var s := cmd + " ";
    assert Join([], " ") == "";
    assert cmd + " " + Join([], " ") == s;
    assert s[0] == cmd[0];
    assert TrimStart(s, IsJsSpace) == s;
    assert s[..|s| - 1] == cmd;
    assert TrimEnd(s, IsJsSpace) == TrimEnd(cmd, IsJsSpace);
    assert TrimEnd(cmd, IsJsSpace) == cmd;
  }

  /** The Windows launcher is shown with its `-3` argument. */
  lemma LemmaInterpInfoLauncher()
    ensures InterpInfo(PlatformInterp(true)) == "py -3"
  {
    var s := "py -3";
    assert Join(["-3"], " ") == "-3";
    assert TrimStart(s, IsJsSpace) == s;
    assert TrimEnd(s, IsJsSpace) == s;
  }

  /** The install command of the "tool missing" tip: the launcher form `py -3 -m pip …` when
      the interpreter is the `py` launcher, otherwise the interpreter path in double quotes. */
  function PipCommand(cmd: string, packages: string): (r: string)
    ensures cmd == "py" ==> r == "py -3 -m pip install " + packages
    ensures cmd != "py" ==> r == "\"" + cmd + "\" -m pip install " + packages
  {
    if cmd == "py" then "py -3 -m pip install " + packages
    else "\"" + cmd + "\" -m pip install " + packages
  }

  /** The two forms of the install command are told apart by their first character, so the
      launcher form is used exactly for the `py` launcher. */
  lemma LemmaPipCommandForm(cmd: string, packages: string)
    ensures PipCommand(cmd, packages)[0] == '"' <==> cmd != "py"
  {
  }
}
