/** The bookkeeping of `EnsimeClient`: its fields, and the methods that update them in place. Each
    method is proved to do what the functions of modules `Session` and `Drain` describe, so the
    lemmas proved there hold of the object. */
module Client {
  import opened Wrappers
  import opened Json
  import S = Session
  import D = Drain
  import T = Text

  /** The options a caller records for one call id. */
  type Options = map<string, Json>

  /** What `complete_func` returns: the start column (first phase), the suggestions (second
      phase), or that an error was raised on the way. */
  datatype Completion = StartColumn(column: int) | Words(words: seq<Json>) | Raised

  /** What the client reads from the editor: the file path, the buffer's lines, the cursor's row
      and column, the current line, and the file information sent with completions. */
  datatype Editor = Editor(path: string, lines: seq<string>, row: int, col: nat, line: string, fileInfo: Json)

  /** The options `symbol_at_point_req` stores for the current call: existing, non-empty options
      get the two flags set in place; otherwise they are replaced by the two flags alone. */
  function DefinitionOptions(prev: Option<Options>, openDefinition: bool, display: bool): (o: Options)
    ensures "open_definition" in o && o["open_definition"] == Bool(openDefinition)
    ensures "display" in o && o["display"] == Bool(display)
    ensures prev.Some? && prev.value != map[] ==>
      && o.Keys == prev.value.Keys + {"open_definition", "display"}
      && forall k :: k in prev.value && k != "open_definition" && k != "display" ==> o[k] == prev.value[k]
    ensures !(prev.Some? && prev.value != map[]) ==> o.Keys == {"open_definition", "display"}
  {
    if prev.Some? && prev.value != map[] then
      prev.value["open_definition" := Bool(openDefinition)]["display" := Bool(display)]
    else
      map["open_definition" := Bool(openDefinition), "display" := Bool(display)]
  }

  /** The options `open_declaration_split` stores before asking for the definition. */
  function SplitOptions(vertical: bool): (o: Options)
    ensures "split" in o && o["split"] == Bool(true)
    ensures "vert" in o <==> vertical
    ensures vertical ==> o["vert"] == Bool(true)
    ensures o.Keys <= {"split", "vert"}
  {
    if vertical then map["split" := Bool(true), "vert" := Bool(true)] else map["split" := Bool(true)]
  }

  /** Asking for the definition in a split keeps the split flags: the stored options say to split
      (vertically when asked), to open the definition, and not to display the symbol. */
  lemma SplitKeepsLayout(vertical: bool)
    ensures var o := DefinitionOptions(Some(SplitOptions(vertical)), true, false);
      && o["split"] == Bool(true) && ("vert" in o <==> vertical) && (vertical ==> o["vert"] == Bool(true))
      && o["open_definition"] == Bool(true) && o["display"] == Bool(false)
  {
  }

  /** The request `symbol_at_point_req` sends. */
  function SymbolAtPointRequest(point: int, path: string): S.Request
  {
    map["point" := Int(point), "typehint" := Str("SymbolAtPointReq"), "file" := Str(path)]
  }

  /** The request `complete` sends. */
  function CompletionsRequest(point: int, fileInfo: Json): S.Request
  {
    map["point" := Int(point), "maxResults" := Int(100), "typehint" := Str("CompletionsReq"),
        "caseSens" := Bool(true), "fileInfo" := fileInfo, "reload" := Bool(false)]
  }

  /** The request `send_refactor_request` sends: type, process id and parameters, then the options
      merged over them. */
  function RefactorRequest(refType: string, procId: nat, refParams: map<string, Json>,
                           refOptions: map<string, Json>): S.Request
  {
    map["typehint" := Str(refType), "procId" := Int(procId), "params" := Obj(refParams)] + refOptions
  }

  /** The merge is last-wins: every option appears with its own value, and the three fixed fields
      keep theirs unless an option of the same name replaces them. */
  lemma RefactorRequestFields(refType: string, procId: nat, refParams: map<string, Json>,
                              refOptions: map<string, Json>)
    ensures var r := RefactorRequest(refType, procId, refParams, refOptions);
      && r.Keys == refOptions.Keys + {"typehint", "procId", "params"}
      && (forall k :: k in refOptions ==> r[k] == refOptions[k])
      && ("procId" !in refOptions ==> r["procId"] == Int(procId))
      && ("params" !in refOptions ==> r["params"] == Obj(refParams))
      && ("typehint" !in refOptions ==> r["typehint"] == Str(refType))
  {
  }

  /** The suggestions after the handler has seen the dispatched responses: `sets` says which list,
      if any, the handler stores for a response. The last response that stores a list wins; when
      none does, the earlier suggestions stay. */
  function SuggestionsAfter(prev: Option<seq<Json>>, ds: seq<D.Dispatch>,
                            sets: D.Dispatch -> Option<seq<Json>>): (r: Option<seq<Json>>)
    ensures (forall i :: 0 <= i < |ds| ==> sets(ds[i]).None?) ==> r == prev
    ensures forall i :: (0 <= i < |ds| && sets(ds[i]).Some? && (forall k :: i < k < |ds| ==> sets(ds[k]).None?))
                        ==> r == sets(ds[i])
  {
    if ds == [] then prev
    else
      var init, last := ds[..|ds| - 1], ds[|ds| - 1];
      assert forall i :: 0 <= i < |init| ==> init[i] == ds[i];
      if sets(last).Some? then sets(last) else SuggestionsAfter(prev, init, sets)
  }

  class EnsimeClient {
    var connected: bool
    var running: bool
    var server: Option<S.Server>
    var connectionRetries: nat
    var callId: nat
    /** The websocket, as the scripted transport of module `Session`. */
    var link: S.Link
    var callOptions: map<nat, Options>
    var refactorId: nat
    /** The file of each refactoring requested, by refactor id. */
    var refactorings: map<nat, Json>
    /** The messages the polling thread has received and not yet been read. */
    var queue: seq<string>
    var suggestions: Option<seq<Json>>
    var completionStarted: bool

    /** The fields that connecting and sending involve. */
    function Session(): S.State
      reads this
    {
      S.State(connected, running, server, connectionRetries, callId, link)
    }

    /** The object's invariant: a connected client knows its server; connecting never reaches the
        transport more often than the initial budget allows; refactor ids in use lie in
        `[1, refactorId)`; options are recorded only for ids already handed out or the next one. */
    ghost predicate Valid()
      reads this
    {
      && S.Valid(Session())
      && link.attempts + connectionRetries <= S.InitialRetries
      && 1 <= refactorId
      && (forall id :: id in refactorings ==> 1 <= id < refactorId)
      && (forall id :: id in callOptions ==> id <= callId)
    }

    /** `__init__`, over a transport whose connection attempts and sends have the outcomes
        `creates` and `sends`. */
    constructor(creates: seq<bool>, sends: seq<bool>)
      ensures Valid()
      ensures Session() == S.Initial(S.Link(creates, sends, 0, []))
      ensures callOptions == map[] && refactorId == 1 && refactorings == map[]
      ensures queue == [] && suggestions == None && !completionStarted
    {
      connected, running, server := false, false, None;
      connectionRetries, callId := S.InitialRetries, 0;
      link := S.Link(creates, sends, 0, []);
      callOptions, refactorId, refactorings := map[], 1, map[];
      queue, suggestions, completionStarted := [], None, false;
    }

    /** `start_polling`, without the thread. */
    method StartPolling()
      modifies this`running
      ensures running
    {
      running := true;
    }

    /** `stop_polling`. */
    method StopPolling()
      modifies this`running
      ensures !running
    {
      running := false;
    }

    /** `connect(server, reconnect)`: follows `Session.Connect`. */
    method Connect(srv: Option<S.Server>, reconnect: bool)
      requires Valid()
      modifies this`connected, this`running, this`server, this`connectionRetries, this`callId, this`link
      ensures Valid()
      ensures Session() == S.Connect(old(Session()), srv, reconnect)
      decreases connectionRetries, 0
    {
      if (connected && !reconnect) || connectionRetries < 1 {
        return;
      }
      connectionRetries := connectionRetries - 1;
      if srv.None? || !srv.value.isRunning {
        return;
      }
      if !S.Succeeds(link.creates) {
        link := link.(creates := S.Next(link.creates), attempts := link.attempts + 1);
        connected := false;
      } else {
        link := link.(creates := S.Next(link.creates), attempts := link.attempts + 1);
        connected := true;
        server := srv;
        if !running {
          StartPolling();
        }
        var _ := SendRequest(S.ConnectionInfoReq);
      }
    }

    /** `send(msg)`: follows `Session.Send`. */
    method Send(env: S.Envelope)
      requires Valid()
      modifies this`connected, this`running, this`server, this`connectionRetries, this`callId, this`link
      ensures Valid()
      ensures Session() == S.Send(old(Session()), env)
      decreases connectionRetries, 1
    {
      if running && connected {
        var ok: bool;
        link, ok := S.Transmit(link, env).0, S.Transmit(link, env).1;
        if !ok {
          Connect(server, true);
          if connected {
            link := S.Transmit(link, env).0;
          }
        }
      }
    }

    /** `send_request(request)`: follows `Session.SendRequest` and returns the id it hands out. */
    method SendRequest(req: S.Request) returns (id: nat)
      requires Valid()
      modifies this`connected, this`running, this`server, this`connectionRetries, this`callId, this`link
      ensures Valid()
      ensures (Session(), id) == S.SendRequest(old(Session()), req)
      decreases connectionRetries, 2
    {
      Send(S.Envelope(callId, req));
      id := callId;
      callId := callId + 1;
    }

    /** `disconnect()`. */
    method Disconnect()
      requires Valid()
      modifies this`connected
      ensures Valid()
      ensures Session() == S.Disconnect(old(Session()))
    {
      if connected {
        connected := false;
      }
    }

    /** `teardown()`, without removing the scratch directory. */
    method Teardown()
      requires Valid()
      modifies this`running, this`connected
      ensures Valid()
      ensures Session() == S.Teardown(old(Session()))
    {
      running := false;
      Disconnect();
    }

    /** `send_refactor_request(ref_type, ref_params, ref_options)`. Reading `ref_params["file"]`
        raises `KeyError` before anything changes when the parameters name no file; otherwise
        the file is recorded under the current refactor id, the id moves on by one, and the
        request goes out. */
    method SendRefactorRequest(refType: string, refParams: map<string, Json>, refOptions: map<string, Json>)
      returns (raised: bool)
      requires Valid()
      modifies this`connected, this`running, this`server, this`connectionRetries, this`callId, this`link
      modifies this`refactorId, this`refactorings
      ensures Valid()
      ensures raised <==> "file" !in refParams
      ensures raised ==> Session() == old(Session()) && refactorId == old(refactorId) && refactorings == old(refactorings)
      ensures !raised ==>
        && refactorings == old(refactorings)[old(refactorId) := refParams["file"]]
        && refactorId == old(refactorId) + 1
        && Session() == S.SendRequest(old(Session()), RefactorRequest(refType, old(refactorId), refParams, refOptions)).0
    {
      if "file" !in refParams {
        return true;
      }
      var request := map["typehint" := Str(refType), "procId" := Int(refactorId), "params" := Obj(refParams)];
      refactorings := refactorings[refactorId := refParams["file"]];
      refactorId := refactorId + 1;
      request := request + refOptions;
      var _ := SendRequest(request);
      raised := false;
    }

    /** `symbol_at_point_req(open_definition, display)`: sets the two flags in the options of the
        current call id and asks for the symbol just after the cursor. */
    method SymbolAtPointReq(openDefinition: bool, display: bool, editor: Editor)
      requires Valid()
      modifies this`connected, this`running, this`server, this`connectionRetries, this`callId, this`link
      modifies this`callOptions
      ensures Valid()
      ensures callOptions == old(callOptions)[old(callId) :=
        DefinitionOptions(if old(callId) in old(callOptions) then Some(old(callOptions)[old(callId)]) else None,
                          openDefinition, display)]
      ensures Session() == S.SendRequest(old(Session()),
        SymbolAtPointRequest(T.GetPosition(editor.lines, editor.row, editor.col) + 1, editor.path)).0
    {
      var opts := if callId in callOptions then Some(callOptions[callId]) else None;
      callOptions := callOptions[callId := DefinitionOptions(opts, openDefinition, display)];
      var pos := T.GetPosition(editor.lines, editor.row, editor.col);
      var _ := SendRequest(SymbolAtPointRequest(pos + 1, editor.path));
    }

    /** `open_declaration_split(args)`: records split options (vertical when `v` is among the
        arguments) and asks for the definition. */
    method OpenDeclarationSplit(args: seq<string>, editor: Editor)
      requires Valid()
      modifies this`connected, this`running, this`server, this`connectionRetries, this`callId, this`link
      modifies this`callOptions
      ensures Valid()
      ensures callOptions == old(callOptions)[old(callId) := DefinitionOptions(Some(SplitOptions("v" in args)), true, false)]
      ensures Session() == S.SendRequest(old(Session()),
        SymbolAtPointRequest(T.GetPosition(editor.lines, editor.row, editor.col) + 1, editor.path)).0
    {
      callOptions := callOptions[callId := SplitOptions("v" in args)];
      SymbolAtPointReq(true, false, editor);
    }

    /** `unqueue(timeout, should_wait)`, with `timeout` counted in ticks of the 0.25 s sleep:
        follows `Drain.Unqueue`. It returns the handler calls made, and whether an error ended
        it; what it has not read stays queued. */
    method Unqueue(timeout: nat, shouldWait: bool, arrivals: seq<seq<string>>, decode: string -> Option<Json>)
      returns (dispatched: seq<D.Dispatch>, raised: bool)
      modifies this`queue
      ensures var r := D.Unqueue(old(queue), arrivals, timeout, shouldWait, decode);
        queue == r.queue && dispatched == r.dispatched && raised == r.raised
    {
      ghost var start := D.Start(queue, arrivals, shouldWait);
      var pending, elapsed, wait := arrivals, 0, queue == [] && shouldWait;
      dispatched, raised := [], false;
      while (queue != [] || wait) && elapsed < timeout
        invariant D.Run(D.Drainer(queue, pending, elapsed, wait, dispatched, false), timeout, decode)
          == D.Run(start, timeout, decode)
        decreases D.Pending(D.Drainer(queue, pending, elapsed, wait, dispatched, false)), timeout - elapsed
      {
        ghost var cur := D.Drainer(queue, pending, elapsed, wait, dispatched, false);
        D.StepProgress(cur, timeout, decode);
        if wait && queue == [] {
          queue := if pending == [] then [] else pending[0];
          pending := if pending == [] then [] else pending[1..];
          elapsed := elapsed + 1;
        } else {
          var m := queue[0];
          queue := queue[1..];
          if !D.Skipped(m) {
            wait, elapsed := false, 0;
            var outcome := D.Decode(m, decode);
            if outcome.Raise? {
              raised := true;
              assert D.Step(cur, decode) == D.Drainer(queue, pending, elapsed, wait, dispatched, true);
              return;
            }
            if outcome.call.Some? {
              dispatched := dispatched + [outcome.call.value];
            }
          }
        }
        assert D.Step(cur, decode) == D.Drainer(queue, pending, elapsed, wait, dispatched, false);
      }
    }

    /** `complete_func(findstart, base)`. The first phase finds where the word before the cursor
        starts, asks the server for completions and marks the completion as started; it fails
        when the cursor lies past the end of the line. The second phase, only after a first one,
        waits up to 40 ticks (10 s) for replies, takes the suggestions the handler stored (none
        means an empty list) and resets both fields; an error while waiting leaves them as they
        are. A second phase without a first returns no words and changes nothing. */
    method CompleteFunc(findstart: string, editor: Editor, arrivals: seq<seq<string>>,
                        decode: string -> Option<Json>, sets: D.Dispatch -> Option<seq<Json>>)
      returns (c: Completion)
      requires Valid()
      modifies this`connected, this`running, this`server, this`connectionRetries, this`callId, this`link
      modifies this`queue, this`suggestions, this`completionStarted
      ensures Valid()
      ensures findstart == "1" ==>
        && (editor.col > |editor.line| <==> c.Raised?)
        && (c.Raised? ==> Session() == old(Session()) && completionStarted == old(completionStarted))
        && (!c.Raised? ==>
              && c.StartColumn? && T.IsWordStart(editor.line, editor.col, c.column)
              && completionStarted
              && Session() == S.SendRequest(old(Session()),
                   CompletionsRequest(T.GetPosition(editor.lines, editor.row, editor.col), editor.fileInfo)).0)
        && queue == old(queue) && suggestions == old(suggestions)
      ensures findstart != "1" && !old(completionStarted) ==>
        && c == Words([]) && !completionStarted && suggestions == old(suggestions) && queue == old(queue)
      ensures findstart != "1" && old(completionStarted) ==>
        var r := D.Unqueue(old(queue), arrivals, 40, true, decode);
        var stored := SuggestionsAfter(old(suggestions), r.dispatched, sets);
        && queue == r.queue
        && (r.raised ==> c.Raised? && suggestions == stored && completionStarted)
        && (!r.raised ==>
              && c == Words(if stored.Some? then stored.value else [])
              && suggestions == None && !completionStarted)
      ensures findstart != "1" ==> Session() == old(Session())
    {
      if findstart == "1" {
        var start := T.DetectStart(editor.line, editor.col);
        if start.None? {
          return Raised;
        }
        var pos := T.GetPosition(editor.lines, editor.row, editor.col);
        var _ := SendRequest(CompletionsRequest(pos, editor.fileInfo));
        completionStarted := true;
        return StartColumn(start.value);
      }
      if !completionStarted {
        return Words([]);
      }
      var dispatched, raised := Unqueue(40, true, arrivals, decode);
      suggestions := SuggestionsAfter(suggestions, dispatched, sets);
      if raised {
        return Raised;
      }
      var words := if suggestions.Some? then suggestions.value else [];
      suggestions := None;
      completionStarted := false;
      return Words(words);
    }
  }
}
