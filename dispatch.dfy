/** The agent's conversation loop (agent/main.py, lines 66-117): the quit
    test, the inner tool-call loop and the formatting of what is fed back.

    The model backend, the JSON decoder, the tool session and Python's str()
    of the tool name are oracles gathered in `Oracles`.  The model's reply is
    a function of every message sent so far, and a tool's result a function
    of every call made before it, so that the conversation history and the
    server's state are both accounted for. */
module Dispatch {
  import opened Base
  import opened Extraction

  /** One content item of a tool result: its `type` and, for text items, its `text`. */
  datatype Content = Content(kind: string, text: string)

  /** What one item adds to the tool output. */
  function Piece(c: Content): string
  {
    if c.kind == "text" then c.text else ""
  }

  /** The texts of the `"text"` items, in order. */
  function TextOf(items: seq<Content>): string
  {
    if items == [] then "" else TextOf(items[..|items| - 1]) + Piece(items[|items| - 1])
  }

  lemma {:induction false} TextOfAppend(a: seq<Content>, b: seq<Content>)
    ensures TextOf(a + b) == TextOf(a) + TextOf(b)
    decreases |b|
  {
    if b == [] {
      assert a + b == a;
    } else {
      assert (a + b)[..|a + b| - 1] == a + b[..|b| - 1];
      TextOfAppend(a, b[..|b| - 1]);
    }
  }

  /** The output is the first item's contribution followed by the rest's. */
  lemma TextOfCons(x: Content, rest: seq<Content>)
    ensures TextOf([x] + rest) == Piece(x) + TextOf(rest)
  {
    TextOfAppend([x], rest);
    assert [x][..0] == [];
  }

  /** Items that are not text contribute nothing; no content gives "". */
  lemma {:induction false} NonTextContributesNothing(items: seq<Content>)
    requires forall k :: 0 <= k < |items| ==> items[k].kind != "text"
    ensures TextOf(items) == ""
    decreases |items|
  {
    if items != [] {
      NonTextContributesNothing(items[..|items| - 1]);
    }
  }

  /** Removing a non-text item anywhere leaves the output unchanged. */
  lemma NonTextItemIgnored(a: seq<Content>, x: Content, b: seq<Content>)
    requires x.kind != "text"
    ensures TextOf(a + [x] + b) == TextOf(a + b)
  {
    TextOfAppend(a + [x], b);
    TextOfAppend(a, b);
    assert (a + [x])[..|a + [x]| - 1] == a;
  }

  /** Lines 100-104: the `+=` loop over `result.content`. */
  method FormatOutput(items: seq<Content>) returns (out: string)
    ensures out == TextOf(items)
  {
    out := "";
    for i := 0 to |items|
      invariant out == TextOf(items[..i])
    {
      assert items[..i + 1][..i] == items[..i];
      if items[i].kind == "text" {
        out := out + items[i].text;
      }
    }
    assert items[..|items|] == items;
  }

  /** `tool_output[:200]`: the first 200 characters, or all of a shorter output. */
  function Shown(out: string): (r: string)
    ensures |r| == Min(200, |out|) && r <= out
  {
    out[..Min(200, |out|)]
  }

  /** Line 106: what is printed for a tool's output. */
  function DisplayLine(out: string): string
  {
    "[Tool Output]: " + Shown(out) + "..."
  }

  /** Line 109: the message fed back, holding the whole output after a fixed header. */
  function Feedback(toolName: string, out: string): (r: string)
    ensures |r| == |toolName| + 16 + |out|
    ensures r[..6] == "Tool '" && r[6..6 + |toolName|] == toolName
    ensures r[6 + |toolName|..|toolName| + 16] == "' output:\n" && r[|toolName| + 16..] == out
  {
    "Tool '" + toolName + "' output:\n" + out
  }

  /** Lines 112-113: the message (printed and fed back) for any exception. */
  function ErrorMessage(e: string): string
  {
    "Error executing tool: " + e
  }

  /** Line 116: how a final answer is shown. */
  function AgentLine(text: string): string
  {
    "\nAgent: " + text
  }

  /** Line 109: `str()` of the tool name inside the f-string.  A string is
      itself and None and the booleans have fixed spellings; the text of any
      other value comes from the `pyStr` collaborator. */
  function NameText(env: Oracles, v: Json): (r: string)
    ensures v.JStr? ==> r == v.s
  {
    match v
    case JStr(s) => s
    case JNull => "None"
    case JBool(b) => if b then "True" else "False"
    case _ => env.pyStr(v)
  }

  /** The external collaborators. */
  datatype Oracles = Oracles(
    reply: seq<string> -> string,                        // the model's reply to the last of the messages sent
    decode: string -> Result<Json>,                      // json.loads
    call: (seq<Request>, Request) -> Result<seq<Content>>, // session.call_tool, given the calls made before
    pyStr: Json -> string)                                  // str() of a number, a list or a dict

  /** Everything the loop has done so far: the messages sent to the model,
      the tool calls made and the lines shown to the user. */
  datatype Conv = Conv(sent: seq<string>, calls: seq<Request>, screen: seq<string>)

  /** How the inner loop ended: on a reply without a tool call, or because
      the model's step budget ran out. */
  datatype TurnEnd = Answered(text: string) | OutOfFuel

  /** One round of the inner loop on the model's reply `text`: the new
      conversation and, if the loop goes on, the model's next reply. */
  function Step(env: Oracles, c: Conv, text: string): (r: (Conv, Option<string>))
    ensures r.1.None? <==> Extract(text).None?
    ensures r.1.None? ==> r.0 == Conv(c.sent, c.calls, c.screen + [AgentLine(text)])
    ensures r.1.None? ==> EndsWith(r.0.screen, AgentLine(text))
    ensures r.1.Some? ==> |r.0.sent| == |c.sent| + 1 && r.0.sent[..|c.sent|] == c.sent && r.1 == Some(env.reply(r.0.sent))
    ensures r.1.Some? ==> r.0.calls == c.calls || (|r.0.calls| == |c.calls| + 1 && r.0.calls[..|c.calls|] == c.calls)
    ensures |r.0.screen| == |c.screen| + 1 && r.0.screen[..|c.screen|] == c.screen
  {
    match Extract(text)
    case None => (Conv(c.sent, c.calls, c.screen + [AgentLine(text)]), None)
    case Some(capture) =>
      match ParseRequest(capture, env.decode)
      case Err(e) =>
        var sent := c.sent + [ErrorMessage(e)];
        (Conv(sent, c.calls, c.screen + [ErrorMessage(e)]), Some(env.reply(sent)))
      case Ok(req) =>
        match env.call(c.calls, req)
        case Err(e) =>
          var sent := c.sent + [ErrorMessage(e)];
          (Conv(sent, c.calls + [req], c.screen + [ErrorMessage(e)]), Some(env.reply(sent)))
        case Ok(items) =>
          var out := TextOf(items);
          var sent := c.sent + [Feedback(NameText(env, req.name), out)];
          (Conv(sent, c.calls + [req], c.screen + [DisplayLine(out)]), Some(env.reply(sent)))
  }

  /** The inner loop from the reply `text`, for at most `fuel` rounds.  A
      turn only appends to the history; every round but an answering one
      sends exactly one message, every call is followed by a message, and
      each round shows one line; a turn ends with an answer only on a reply
      that holds no tool call, and that reply is the last line shown. */
  function Turn(env: Oracles, c: Conv, text: string, fuel: nat): (r: (Conv, TurnEnd))
    ensures Extends(c, r.0) && Counted(c, r, fuel)
    ensures r.1.Answered? ==> Extract(r.1.text).None? && EndsWith(r.0.screen, AgentLine(r.1.text))
    decreases fuel
  {
    if fuel == 0 then (c, OutOfFuel)
    else
      var round := Step(env, c, text);
      if round.1.None? then (round.0, Answered(text))
      else
        var rest := Turn(env, round.0, round.1.value, fuel - 1);
        ExtendsTrans(c, round.0, rest.0);
        CountedStep(c, round.0, rest, fuel);
        rest
  }

  /** A turn with fuel left is one round followed by the rest of the turn. */
  lemma TurnAdvance(env: Oracles, c: Conv, text: string, fuel: nat, c': Conv, next: Option<string>)
    requires fuel > 0 && (c', next) == Step(env, c, text)
    ensures next.None? ==> Turn(env, c, text, fuel) == (c', Answered(text))
    ensures next.Some? ==> Turn(env, c, text, fuel) == Turn(env, c', next.value, fuel - 1)
  {
  }

  // ---------------------------------------------------------------------
  // What one round and one turn do

  /** A reply without a tool call ends the turn at once: no call, no message,
      and the reply shown as the agent's answer. */
  lemma NoCaptureEndsTurn(env: Oracles, c: Conv, text: string, fuel: nat)
    requires Extract(text).None? && fuel > 0
    ensures Turn(env, c, text, fuel) == (Conv(c.sent, c.calls, c.screen + [AgentLine(text)]), Answered(text))
  {
  }

  /** A capture that cannot be decoded, or that is not an object, makes no
      call and feeds exactly one error message back; the loop goes on with
      the model's reply to it. */
  lemma ParseErrorFedBack(env: Oracles, c: Conv, text: string)
    requires Extract(text).Some? && ParseRequest(Extract(text).value, env.decode).Err?
    ensures var e := ParseRequest(Extract(text).value, env.decode).msg;
      Step(env, c, text) == (Conv(c.sent + [ErrorMessage(e)], c.calls, c.screen + [ErrorMessage(e)]),
                             Some(env.reply(c.sent + [ErrorMessage(e)])))
  {
  }

  /** A call that raises is made once and its exception fed back as one
      error message; the loop goes on. */
  lemma CallErrorFedBack(env: Oracles, c: Conv, text: string, req: Request, e: string)
    requires Extract(text).Some? && ParseRequest(Extract(text).value, env.decode) == Ok(req)
    requires env.call(c.calls, req) == Err(e)
    ensures Step(env, c, text) == (Conv(c.sent + [ErrorMessage(e)], c.calls + [req], c.screen + [ErrorMessage(e)]),
                                   Some(env.reply(c.sent + [ErrorMessage(e)])))
  {
  }

  /** A successful call: the screen gets at most 200 characters of the
      output, the model gets all of it after the header naming the tool. */
  lemma ToolOutputFedBack(env: Oracles, c: Conv, text: string, req: Request, items: seq<Content>)
    requires Extract(text).Some? && ParseRequest(Extract(text).value, env.decode) == Ok(req)
    requires env.call(c.calls, req) == Ok(items)
    ensures var (c', next) := Step(env, c, text);
      && c'.calls == c.calls + [req]
      && c'.sent == c.sent + ["Tool '" + NameText(env, req.name) + "' output:\n" + TextOf(items)]
      && (req.name.JStr? ==> c'.sent == c.sent + ["Tool '" + req.name.s + "' output:\n" + TextOf(items)])
      && c'.screen == c.screen + ["[Tool Output]: " + TextOf(items)[..Min(200, |TextOf(items)|)] + "..."]
      && next == Some(env.reply(c'.sent))
  {
  }

  /** An object without "arguments" is dispatched with an empty argument map. */
  lemma MissingArgumentsAreEmpty(env: Oracles, c: Conv, text: string, fields: map<string, Json>)
    requires Extract(text).Some? && env.decode(Extract(text).value) == Ok(JObj(fields))
    requires "arguments" !in fields
    ensures Step(env, c, text).0.calls == c.calls + [Request(Get(fields, "tool", JNull), JObj(map[]))]
  {
    RequestFields(Extract(text).value, env.decode, fields);
  }

  /** `line` is the last of `lines`. */
  predicate EndsWith(lines: seq<string>, line: string)
  {
    |lines| > 0 && lines[|lines| - 1] == line
  }

  /** `b` extends the history `a`. */
  predicate Extends(a: Conv, b: Conv)
  {
    a.sent <= b.sent && a.calls <= b.calls && a.screen <= b.screen
  }

  lemma ExtendsTrans(a: Conv, b: Conv, c: Conv)
    requires Extends(a, b) && Extends(b, c)
    ensures Extends(a, c)
  {
    assert c.sent[..|b.sent|][..|a.sent|] == c.sent[..|a.sent|];
    assert c.calls[..|b.calls|][..|a.calls|] == c.calls[..|a.calls|];
    assert c.screen[..|b.screen|][..|a.screen|] == c.screen[..|a.screen|];
  }

  /** How much a turn added: `Counted(c, r, fuel)` for the history `c` before
      it and its outcome `r`. */
  predicate Counted(c: Conv, r: (Conv, TurnEnd), fuel: nat)
  {
    && |r.0.calls| - |c.calls| <= |r.0.sent| - |c.sent|
    && |r.0.screen| == |c.screen| + |r.0.sent| - |c.sent| + (if r.1.Answered? then 1 else 0)
    && (r.1.OutOfFuel? ==> |r.0.sent| == |c.sent| + fuel)
    && (r.1.Answered? ==> |r.0.sent| < |c.sent| + fuel)
  }

  /** A round that sent one message and showed one line, followed by the
      rest of the turn. */
  lemma CountedStep(c: Conv, c1: Conv, r: (Conv, TurnEnd), fuel: nat)
    requires fuel > 0 && Counted(c1, r, fuel - 1)
    requires |c1.sent| == |c.sent| + 1 && |c1.screen| == |c.screen| + 1
    requires |c1.calls| <= |c.calls| + 1
    ensures Counted(c, r, fuel)
  {
  }

  // ---------------------------------------------------------------------
  // The quit test (lines 68-69)

  function LowerChar(ch: char): char
  {
    if 'A' <= ch <= 'Z' then (ch as int - 'A' as int + 'a' as int) as char else ch
  }

  /** `str.lower()` on the letters that matter to the quit test. */
  function Lower(s: string): (r: string)
    ensures |r| == |s| && forall k :: 0 <= k < |s| ==> r[k] == LowerChar(s[k])
  {
    seq(|s|, k requires 0 <= k < |s| => LowerChar(s[k]))
  }

  predicate IsQuit(s: string)
  {
    Lower(s) in ["quit", "exit"]
  }

  /** The quit words are recognised in any letter case and nothing longer or
      shorter is one. */
  lemma QuitWords(s: string)
    ensures IsQuit("quit") && IsQuit("EXIT") && IsQuit("Quit") && !IsQuit("quit ")
    ensures IsQuit(s) ==> |s| == 4
    ensures IsQuit(s) <==> IsQuit(Lower(s))
  {
    assert Lower("quit") == "quit";
    assert Lower("EXIT") == "exit";
    assert Lower("Quit") == "quit";
    assert Lower(Lower(s)) == Lower(s);
  }

  // ---------------------------------------------------------------------
  // The whole session over a sequence of user inputs

  /** The outer loop: every input up to the first quit word is sent to the
      model and its turn run.  A turn that runs out of fuel stands for an
      inner loop that never ends, so no later input is read.  The session
      only appends to the history, and an input it reads is the next
      message sent. */
  function Session(env: Oracles, c: Conv, inputs: seq<string>, fuel: nat): (r: Conv)
    ensures Extends(c, r)
    ensures inputs != [] && !IsQuit(inputs[0]) ==> c.sent + [inputs[0]] <= r.sent
    decreases |inputs|
  {
    if inputs == [] || IsQuit(inputs[0]) then c
    else
      var (c', end) := InputTurn(env, c, inputs[0], fuel);
      if end.OutOfFuel? then c'
      else
        var r := Session(env, c', inputs[1..], fuel);
        ExtendsTrans(c, c', r);
        r
  }

  /** Line 72 and the inner loop: `input` is sent and the turn on the
      model's reply is run. */
  function InputTurn(env: Oracles, c: Conv, input: string, fuel: nat): (r: (Conv, TurnEnd))
    ensures Extends(c, r.0) && c.sent + [input] <= r.0.sent
  {
    var sent := c.sent + [input];
    var r := Turn(env, Conv(sent, c.calls, c.screen), env.reply(sent), fuel);
    Extends1(c, input);
    ExtendsTrans(c, Conv(sent, c.calls, c.screen), r.0);
    r
  }

  /** Sending one message extends the history. */
  lemma Extends1(c: Conv, m: string)
    ensures Extends(c, Conv(c.sent + [m], c.calls, c.screen))
  {
    assert (c.sent + [m])[..|c.sent|] == c.sent;
  }

  /** After a turn that ends with an answer, the session goes on from that
      turn's history with the remaining inputs; with `Session`'s own
      contract, every input read is the next message sent. */
  lemma SessionUnfolds(env: Oracles, c: Conv, inputs: seq<string>, fuel: nat)
    requires inputs != [] && !IsQuit(inputs[0]) && InputTurn(env, c, inputs[0], fuel).1.Answered?
    ensures var c' := InputTurn(env, c, inputs[0], fuel).0;
      Session(env, c, inputs, fuel) == Session(env, c', inputs[1..], fuel) &&
      c.sent + [inputs[0]] <= c'.sent
  {
  }

  /** Nothing after a quit word is read. */
  lemma {:induction false} SessionStopsAtQuit(env: Oracles, c: Conv, inputs: seq<string>, fuel: nat, k: nat)
    requires k < |inputs| && IsQuit(inputs[k])
    ensures Session(env, c, inputs, fuel) == Session(env, c, inputs[..k], fuel)
    decreases k
  {
    if k > 0 && !IsQuit(inputs[0]) {
      var (c', end) := InputTurn(env, c, inputs[0], fuel);
      assert inputs[..k][0] == inputs[0];
      if end.Answered? {
        SessionStopsAtQuit(env, c', inputs[1..], fuel, k - 1);
        assert inputs[..k][1..] == inputs[1..][..k - 1];
      }
    }
  }

  /** A turn that runs out of fuel is the last: the inputs after it are
      never sent.  Without fuel, only the first input reaches the model. */
  lemma StalledTurnEndsSession(env: Oracles, c: Conv, inputs: seq<string>, fuel: nat)
    requires inputs != [] && !IsQuit(inputs[0]) && InputTurn(env, c, inputs[0], fuel).1.OutOfFuel?
    ensures Session(env, c, inputs, fuel) == Session(env, c, inputs[..1], fuel)
    ensures fuel == 0 ==> Session(env, c, inputs, fuel).sent == c.sent + [inputs[0]]
  {
    assert inputs[..1][0] == inputs[0];
  }

  // ---------------------------------------------------------------------
  // The loop as the source runs it

  /** The running agent: the model session (messages sent), the tool session
      (calls made) and the console (lines shown). */
  class Agent {
    const env: Oracles
    var sent: seq<string>
    var calls: seq<Request>
    var screen: seq<string>

    function State(): Conv
      reads this
    {
      Conv(sent, calls, screen)
    }

    constructor (env: Oracles)
      ensures this.env == env && State() == Conv([], [], [])
    {
      this.env := env;
      sent, calls, screen := [], [], [];
    }

    /** `llm.send_message`: the history grows by one message and the reply
        answers all of it. */
    method Send(message: string) returns (reply: string)
      modifies this
      ensures sent == old(sent) + [message] && calls == old(calls) && screen == old(screen)
      ensures reply == env.reply(sent)
    {
      sent := sent + [message];
      reply := env.reply(sent);
    }

    /** `session.call_tool`. */
    method CallTool(req: Request) returns (result: Result<seq<Content>>)
      modifies this
      ensures calls == old(calls) + [req] && sent == old(sent) && screen == old(screen)
      ensures result == env.call(old(calls), req)
    {
      result := env.call(calls, req);
      calls := calls + [req];
    }

    /** `print`. */
    method Show(line: string)
      modifies this
      ensures screen == old(screen) + [line] && sent == old(sent) && calls == old(calls)
    {
      screen := screen + [line];
    }

    /** Lines 78-117, one pass of the inner loop's body: `None` where the
        source breaks out, otherwise the model's next reply. */
    method RunStep(text: string) returns (next: Option<string>)
      modifies this
      ensures (State(), next) == Step(env, old(State()), text)
    {
      var capture := Extract(text);
      if capture.None? {
        Show(AgentLine(text));
        return None;
      }
      var message;
      var parsed := ParseRequest(capture.value, env.decode);
      if parsed.Err? {
        message := ErrorMessage(parsed.msg);
        Show(message);
      } else {
        var req := parsed.value;
        var result := CallTool(req);
        if result.Err? {
          message := ErrorMessage(result.msg);
          Show(message);
        } else {
          var output := FormatOutput(result.value);
          Show(DisplayLine(output));
          message := Feedback(NameText(env, req.name), output);
        }
      }
      var reply := Send(message);
      next := Some(reply);
    }

    /** Lines 77-117: the inner loop on the model's reply, for at most
        `fuel` rounds. */
    method RunTurn(response: string, fuel: nat) returns (end: TurnEnd)
      modifies this
      ensures (State(), end) == Turn(env, old(State()), response, fuel)
    {
      var text := response;
      var left := fuel;
      ghost var goal := Turn(env, State(), response, fuel);
      end := OutOfFuel;
      while left > 0
        invariant Turn(env, State(), text, left) == goal
        invariant end == OutOfFuel
      {
        var done;
        done, text, left := RunRound(text, left, goal);
        if done {
          end := Answered(text);
          return;
        }
      }
    }

    /** One round of `RunTurn`, stated by what remains of the turn. */
    method RunRound(text: string, left: nat, ghost goal: (Conv, TurnEnd)) returns (done: bool, text': string, left': nat)
      requires left > 0 && Turn(env, State(), text, left) == goal
      modifies this
      ensures done ==> text' == text && (State(), Answered(text)) == goal
      ensures !done ==> left' == left - 1 && Turn(env, State(), text', left') == goal
    {
      ghost var before := State();
      var next := RunStep(text);
      TurnAdvance(env, before, text, left, State(), next);
      if next.None? {
        return true, text, left;
      }
      return false, next.value, left - 1;
    }

    /** Lines 66-73 around the inner loop: each input up to the first quit
        word is sent to the model and its turn run. */
    method RunSession(inputs: seq<string>, fuel: nat)
      modifies this
      ensures State() == Session(env, old(State()), inputs, fuel)
    {
      var i := 0;
      while i < |inputs|
        invariant i <= |inputs|
        invariant Session(env, State(), inputs[i..], fuel) == Session(env, old(State()), inputs, fuel)
      {
        if IsQuit(inputs[i]) {
          break;
        }
        var response := Send(inputs[i]);
        var end := RunTurn(response, fuel);
        assert inputs[i..][1..] == inputs[i + 1..];
        if end.OutOfFuel? {
          break;
        }
        i := i + 1;
      }
    }
  }
}
