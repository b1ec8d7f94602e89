/** The rule that picks the interpreter for the tool host's script when the client connects. */
module ServerLaunch {
  import opened Wrappers
  import opened Text

  /** How the tool host is launched: `command` with `args`, inheriting the environment. */
  datatype ServerParams = ServerParams(command: string, args: seq<string>)

  const ExtensionError := "Server script must be a .py or .js file"

  /** A `.py` or `.js` script is launched with `python` or `node`; any other path is refused. */
  function ServerParameters(path: string): (r: Result<ServerParams, string>)
    ensures r.Ok? <==> EndsWith(path, ".py") || EndsWith(path, ".js")
    ensures r.Ok? ==> r.value.args == [path]
    ensures r.Ok? ==> (r.value.command == "python" <==> EndsWith(path, ".py"))
    ensures r.Ok? ==> (r.value.command == "node" <==> EndsWith(path, ".js"))
    ensures r.Err? ==> r.error == ExtensionError
  {
    if !(EndsWith(path, ".py") || EndsWith(path, ".js")) then Err(ExtensionError)
    else
      var command := if EndsWith(path, ".py") then "python" else "node";
      Ok(ServerParams(command, [path]))
  }

  /** Any path ending in `.py` runs with `python`, the path as the only argument. */
  lemma PythonScript(stem: string)
    ensures ServerParameters(stem + ".py") == Ok(ServerParams("python", [stem + ".py"]))
  {
    var path := stem + ".py";
    assert path[|path| - 3..] == ".py";
  }

  /** Any path ending in `.js` runs with `node`, the path as the only argument. */
  lemma NodeScript(stem: string)
    ensures ServerParameters(stem + ".js") == Ok(ServerParams("node", [stem + ".js"]))
  {
    var path := stem + ".js";
    assert path[|path| - 3..] == ".js";
  }

  /** An accepted path is some stem followed by `.py` or `.js`; every other path gets the extension error. */
  lemma AcceptedPaths(path: string)
    ensures ServerParameters(path).Ok? ==>
      |path| >= 3 && (path == path[..|path| - 3] + ".py" || path == path[..|path| - 3] + ".js")
    ensures ServerParameters(path).Err? ==> ServerParameters(path).error == "Server script must be a .py or .js file"
  {
    if ServerParameters(path).Ok? {
      assert path == path[..|path| - 3] + path[|path| - 3..];
    }
  }
}
