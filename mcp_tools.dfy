/**
 * The tools the information agents call.  Three of them forward to an MCP server that
 * runs as a sub-process; the session (launch, `initialize`, `call_tool`) is a
 * parameter that yields the server's result or the exception it raised.  The fourth,
 * `search_restaurants`, formats a fixed string.
 */
module McpTools {
  import opened Wrappers
  import opened Text
  import opened PyValues

  /** An item of `result.content`: its `type` and its `text`. */
  datatype Content = Content(kind: string, text: string)

  /** What `session.call_tool` returns. */
  datatype CallToolResult = CallToolResult(isError: bool, content: seq<Content>)

  /** How the session ended: with a result, or with an exception and its message. */
  datatype SessionOutcome = Completed(result: CallToolResult) | Raised(error: string)

  /** `StdioServerParameters(command=..., args=..., env=...)`. */
  datatype ServerParams = ServerParams(command: string, args: seq<string>, env: Option<map<string, string>>)

  /** The texts of the `"text"` items, in order; other items are dropped. */
  function TextsOf(cs: seq<Content>): (ts: seq<string>)
    ensures |ts| <= |cs|
    ensures forall t :: t in ts ==> exists c :: c in cs && c.kind == "text" && c.text == t
  {
    if cs == [] then []
    else
      var rest := TextsOf(cs[1..]);
      assert forall c :: c in cs[1..] ==> c in cs;
      (if cs[0].kind == "text" then [cs[0].text] else []) + rest
  }

  lemma {:induction false} TextsOfAppend(a: seq<Content>, b: seq<Content>)
    ensures TextsOf(a + b) == TextsOf(a) + TextsOf(b)
  {
    if a == [] {
      assert a + b == b;
    } else {
      assert (a + b)[1..] == a[1..] + b;
      assert (a + b)[0] == a[0];
      TextsOfCons(a + b);
      TextsOfCons(a);
      TextsOfAppend(a[1..], b);
    }
  }

  /** The first item's text, when it is text, comes before the texts of the rest. */
  lemma TextsOfCons(cs: seq<Content>)
    requires cs != []
    ensures TextsOf(cs) == (if cs[0].kind == "text" then [cs[0].text] else []) + TextsOf(cs[1..])
  {
  }

  /** An item that is not text adds nothing to the output, wherever it stands. */
  lemma NonTextDropped(a: seq<Content>, c: Content, b: seq<Content>)
    requires c.kind != "text"
    ensures TextsOf(a + [c] + b) == TextsOf(a + b)
  {
    TextsOfAppend(a + [c], b);
    TextsOfAppend(a, [c]);
    TextsOfAppend(a, b);
    assert [c][1..] == [];
  }

  /** When every item is text, the output keeps every text, in order. */
  lemma {:induction false} AllTextKept(cs: seq<Content>)
    requires forall i :: 0 <= i < |cs| ==> cs[i].kind == "text"
    ensures |TextsOf(cs)| == |cs|
    ensures forall i :: 0 <= i < |cs| ==> TextsOf(cs)[i] == cs[i].text
  {
    if cs != [] {
      AllTextKept(cs[1..]);
    }
  }

  function NoCommand(toolName: string): string
  {
    "Error: No command configured for " + toolName
  }

  /** The string a finished or failed session turns into. */
  function Outcome(o: SessionOutcome, toolName: string, show: seq<Content> -> string): (r: string)
    ensures o.Raised? ==> r == "Error calling MCP tool " + toolName + ": " + o.error
    ensures o.Completed? && o.result.isError ==> r == "Tool execution failed: " + show(o.result.content)
    ensures o.Completed? && !o.result.isError ==> r == Join(TextsOf(o.result.content), "\n")
  {
    match o
    case Raised(e) => "Error calling MCP tool " + toolName + ": " + e
    case Completed(res) =>
      if res.isError then "Tool execution failed: " + show(res.content)
      else Join(TextsOf(res.content), "\n")
  }

  /**
   * `call_mcp_tool`: an empty command answers at once; otherwise the session's outcome
   * is mapped to a string.  `show` is `str()` of the content list.  It never raises.
   */
  function CallMcpTool(command: string, args: seq<string>, toolName: string, toolArgs: PyValue,
                       env: Option<map<string, string>>,
                       session: (ServerParams, string, PyValue) -> SessionOutcome,
                       show: seq<Content> -> string): (r: string)
    ensures command == "" ==> r == NoCommand(toolName)
    ensures command != "" ==> r == Outcome(session(ServerParams(command, args, env), toolName, toolArgs), toolName, show)
  {
    if command == "" then NoCommand(toolName)
    else Outcome(session(ServerParams(command, args, env), toolName, toolArgs), toolName, show)
  }

  /** With no command the session is never consulted: any two sessions give the same answer. */
  lemma NoCommandNeverConnects(args: seq<string>, toolName: string, toolArgs: PyValue,
                               env: Option<map<string, string>>,
                               session1: (ServerParams, string, PyValue) -> SessionOutcome,
                               session2: (ServerParams, string, PyValue) -> SessionOutcome,
                               show: seq<Content> -> string)
    ensures CallMcpTool("", args, toolName, toolArgs, env, session1, show)
            == CallMcpTool("", args, toolName, toolArgs, env, session2, show)
            == NoCommand(toolName)
  {
  }

  /** A successful result with a single text item answers with exactly that text. */
  lemma SingleTextAnswer(command: string, args: seq<string>, toolName: string, toolArgs: PyValue,
                         env: Option<map<string, string>>,
                         session: (ServerParams, string, PyValue) -> SessionOutcome,
                         show: seq<Content> -> string, text: string)
    requires command != ""
    requires session(ServerParams(command, args, env), toolName, toolArgs)
             == Completed(CallToolResult(false, [Content("text", text)]))
    ensures CallMcpTool(command, args, toolName, toolArgs, env, session, show) == text
  {
    assert TextsOf([Content("text", text)]) == [text] by {
      assert [Content("text", text)][1..] == [];
    }
  }

  /** The three MCP servers. */
  datatype Server = Attraction | Weather | Hotel

  function CommandKey(server: Server): string
  {
    match server
    case Attraction => "ATTRACTION_MCP_CMD"
    case Weather => "WEATHER_MCP_CMD"
    case Hotel => "HOTEL_MCP_CMD"
  }

  function ArgsKey(server: Server): string
  {
    match server
    case Attraction => "ATTRACTION_MCP_ARGS"
    case Weather => "WEATHER_MCP_ARGS"
    case Hotel => "HOTEL_MCP_ARGS"
  }

  /** The Python module each server runs by default. */
  function ServerModule(server: Server): string
  {
    match server
    case Attraction => "mcp_server_attraction"
    case Weather => "mcp_server_weather"
    case Hotel => "mcp_server_hotel"
  }

  /** `os.environ.get(key, default)`. */
  function EnvGet(environ: map<string, string>, key: string, default: string): string
  {
    if key in environ then environ[key] else default
  }

  function ServerCommand(environ: map<string, string>, server: Server): string
  {
    EnvGet(environ, CommandKey(server), "python3")
  }

  /** The argument string, split on whitespace. */
  function ServerArgs(environ: map<string, string>, server: Server): (r: seq<string>)
    ensures forall i :: 0 <= i < |r| ==> IsToken(r[i])
  {
    Split(EnvGet(environ, ArgsKey(server), "-m " + ServerModule(server)))
  }

  lemma ModuleIsToken(server: Server)
    ensures IsToken(ServerModule(server))
  {
    match server
    case Attraction => LowerToken(ServerModule(Attraction));
    case Weather => LowerToken(ServerModule(Weather));
    case Hotel => LowerToken(ServerModule(Hotel));
  }

  /** A non-empty run of lower-case letters and underscores contains no whitespace. */
  lemma LowerToken(t: string)
    requires t != [] && forall i :: 0 <= i < |t| ==> 'a' <= t[i] <= 'z' || t[i] == '_'
    ensures IsToken(t)
  {
  }

  /** Without overrides each server is `python3 -m <its module>`, the arguments split in two. */
  lemma DefaultServer(server: Server)
    ensures ServerCommand(map[], server) == "python3"
    ensures ServerArgs(map[], server) == ["-m", ServerModule(server)]
  {
    var ts := ["-m", ServerModule(server)];
    assert IsToken(ts[0]) by {
      assert forall i :: 0 <= i < |ts[0]| ==> ts[0][i] in "-m";
    }
    ModuleIsToken(server);
    assert Join(ts, " ") == "-m " + ServerModule(server) by {
      assert ts[1..] == [ServerModule(server)];
    }
    SplitJoin(ts);
  }

  function SearchDestinations(environ: map<string, string>, query: string,
                              session: (ServerParams, string, PyValue) -> SessionOutcome,
                              show: seq<Content> -> string): string
  {
    CallMcpTool(ServerCommand(environ, Attraction), ServerArgs(environ, Attraction),
                "search_destinations", PyDict([("query", PyStr(query))]), None, session, show)
  }

  function GetWeather(environ: map<string, string>, location: string, date: string,
                      session: (ServerParams, string, PyValue) -> SessionOutcome,
                      show: seq<Content> -> string): string
  {
    CallMcpTool(ServerCommand(environ, Weather), ServerArgs(environ, Weather),
                "get_weather", PyDict([("location", PyStr(location)), ("date", PyStr(date))]), None, session, show)
  }

  function SearchHotels(environ: map<string, string>, location: string, checkIn: string, checkOut: string,
                        session: (ServerParams, string, PyValue) -> SessionOutcome,
                        show: seq<Content> -> string): string
  {
    CallMcpTool(ServerCommand(environ, Hotel), ServerArgs(environ, Hotel),
                "search_hotels",
                PyDict([("location", PyStr(location)), ("check_in", PyStr(checkIn)), ("check_out", PyStr(checkOut))]),
                None, session, show)
  }

  /** With the default environment each wrapper asks its own server for its own tool. */
  lemma DefaultWrappers(location: string, date: string, query: string, checkIn: string, checkOut: string,
                        session: (ServerParams, string, PyValue) -> SessionOutcome,
                        show: seq<Content> -> string)
    ensures SearchDestinations(map[], query, session, show)
            == Outcome(session(ServerParams("python3", ["-m", "mcp_server_attraction"], None), "search_destinations",
                               PyDict([("query", PyStr(query))])), "search_destinations", show)
    ensures GetWeather(map[], location, date, session, show)
            == Outcome(session(ServerParams("python3", ["-m", "mcp_server_weather"], None), "get_weather",
                               PyDict([("location", PyStr(location)), ("date", PyStr(date))])), "get_weather", show)
    ensures SearchHotels(map[], location, checkIn, checkOut, session, show)
            == Outcome(session(ServerParams("python3", ["-m", "mcp_server_hotel"], None), "search_hotels",
                               PyDict([("location", PyStr(location)), ("check_in", PyStr(checkIn)),
                                       ("check_out", PyStr(checkOut))])), "search_hotels", show)
  {
    DefaultServer(Attraction);
    DefaultServer(Weather);
    DefaultServer(Hotel);
  }

  /** An empty command in the environment makes the wrapper answer with the configuration error. */
  lemma UnconfiguredWeather(environ: map<string, string>, location: string, date: string,
                            session: (ServerParams, string, PyValue) -> SessionOutcome,
                            show: seq<Content> -> string)
    requires "WEATHER_MCP_CMD" in environ && environ["WEATHER_MCP_CMD"] == ""
    ensures GetWeather(environ, location, date, session, show) == "Error: No command configured for get_weather"
  {
  }

  /** `search_restaurants`: mock data, with the cuisine shown only when one is given. */
  function SearchRestaurants(location: string, cuisine: Option<string>): (r: string)
    ensures cuisine == None || cuisine == Some("") ==> r == "Restaurants in " + location + " (Mock Data)"
    ensures cuisine.Some? && cuisine.value != "" ==>
      r == "Restaurants in " + location + " (" + cuisine.value + " cuisine) (Mock Data)"
  {
    var cuisineStr := if cuisine.Some? && cuisine.value != "" then " (" + cuisine.value + " cuisine)" else "";
    "Restaurants in " + location + cuisineStr + " (Mock Data)"
  }

  /** Whatever the cuisine, the answer names the location first and ends with the mock-data tag. */
  lemma RestaurantsFrame(location: string, cuisine: Option<string>)
    ensures "Restaurants in " + location <= SearchRestaurants(location, cuisine)
    ensures var r := SearchRestaurants(location, cuisine);
      |r| >= 12 && r[|r| - 12..] == " (Mock Data)"
  {
    var r := SearchRestaurants(location, cuisine);
    var head := "Restaurants in " + location;
    var middle := if cuisine.Some? && cuisine.value != "" then " (" + cuisine.value + " cuisine)" else "";
    assert r == head + (middle + " (Mock Data)");
    assert r[..|head|] == head;
    assert r[|r| - 12..] == " (Mock Data)";
  }

  /** The `tools` list, by name; the names are distinct, so lookup by name is unambiguous. */
  const ToolNames: seq<string> := ["search_destinations", "get_weather", "search_hotels", "search_restaurants"]

  lemma ToolNamesDistinct()
    ensures forall i, j :: 0 <= i < j < |ToolNames| ==> ToolNames[i] != ToolNames[j]
  {
  }
}
