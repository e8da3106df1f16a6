/** The `/api/chat` handler: the missing-message check, the call to the
    generator, and the rendering of its template as one reply string. */
module ChatRoute {
  import opened Wrappers
  import opened JsString
  import opened UserData
  import opened Responder
  import ResponderFacts

  const HEADER := "**Actionable Insight**"

  /** The reply string: bold summary, blank line, details, blank line, bold
      header, then one insight per line. */
  function Format(t: Template): (r: string)
    ensures |r| == |t.summary| + |t.details| + |HEADER| + 9 + |Join(t.actionableInsight, "\n")|
    ensures r[..|t.summary| + 6] == "**" + t.summary + "**\n\n"
    ensures r[|r| - |Join(t.actionableInsight, "\n")|..] == Join(t.actionableInsight, "\n")
  {
    "**" + t.summary + "**" + "\n\n" + t.details + "\n\n" + HEADER + "\n" + Join(t.actionableInsight, "\n")
  }

  /** The lines of a string, split at every newline (`s.split("\n")`). */
  function Lines(s: string): (r: seq<string>)
    ensures |r| > 0
  {
    if s == [] then [[]]
    else
      var rest := Lines(s[1..]);
      if s[0] == '\n' then [[]] + rest else [[s[0]] + rest[0]] + rest[1..]
  }

  predicate OneLine(s: string) {
    '\n' !in s
  }

  lemma {:induction false} OneLineLines(s: string)
    requires OneLine(s)
    ensures Lines(s) == [s]
  {
    if s != [] {
      assert OneLine(s[1..]);
      OneLineLines(s[1..]);
      assert s[0] != '\n';
      assert [s[0]] + s[1..] == s;
    }
  }

  /** Splitting at a newline splits the lines. */
  lemma {:induction false} LinesAroundNewline(a: string, b: string)
    ensures Lines(a + "\n" + b) == Lines(a) + Lines(b)
  {
    if a == [] {
      assert a + "\n" + b == "\n" + b;
      assert ("\n" + b)[1..] == b;
    } else {
      assert (a + "\n" + b)[1..] == a[1..] + "\n" + b;
      LinesAroundNewline(a[1..], b);
    }
  }

  /** Joining one-line strings with newlines and splitting again gives them
      back. */
  lemma {:induction false} LinesOfJoin(xs: seq<string>)
    requires xs != []
    requires forall i :: 0 <= i < |xs| ==> OneLine(xs[i])
    ensures Lines(Join(xs, "\n")) == xs
  {
    if |xs| == 1 {
      OneLineLines(xs[0]);
    } else {
      OneLineLines(xs[0]);
      LinesOfJoin(xs[1..]);
      LinesAroundNewline(xs[0], Join(xs[1..], "\n"));
    }
  }

  lemma JoinCons(x: string, xs: seq<string>, sep: string)
    requires xs != []
    ensures Join([x] + xs, sep) == x + sep + Join(xs, sep)
  {
    assert ([x] + xs)[1..] == xs;
  }

  /** The reply is six lines joined by newlines: the bold summary, an empty
      line, the details, an empty line, the header and the joined insights. */
  lemma FormatIsJoin(t: Template)
    ensures Format(t) ==
      Join(["**" + t.summary + "**", "", t.details, "", HEADER, Join(t.actionableInsight, "\n")], "\n")
  {
    var bold := "**" + t.summary + "**";
    var body := Join(t.actionableInsight, "\n");
    JoinCons(HEADER, [body], "\n");
    JoinCons("", [HEADER, body], "\n");
    JoinCons(t.details, ["", HEADER, body], "\n");
    JoinCons("", [t.details, "", HEADER, body], "\n");
    JoinCons(bold, ["", t.details, "", HEADER, body], "\n");
    assert [HEADER] + [body] == [HEADER, body];
    assert [""] + [HEADER, body] == ["", HEADER, body];
    assert [t.details] + ["", HEADER, body] == [t.details, "", HEADER, body];
    assert [""] + [t.details, "", HEADER, body] == ["", t.details, "", HEADER, body];
    assert [bold] + ["", t.details, "", HEADER, body] == [bold, "", t.details, "", HEADER, body];
  }

  /** Joining a joined tail in place of the tail changes nothing. */
  lemma {:induction false} JoinFlatten(prefix: seq<string>, xs: seq<string>, sep: string)
    requires xs != []
    ensures Join(prefix + [Join(xs, sep)], sep) == Join(prefix + xs, sep)
  {
    if prefix == [] {
      assert prefix + [Join(xs, sep)] == [Join(xs, sep)];
      assert prefix + xs == xs;
    } else {
      JoinFlatten(prefix[1..], xs, sep);
      assert prefix + [Join(xs, sep)] == [prefix[0]] + (prefix[1..] + [Join(xs, sep)]);
      assert prefix + xs == [prefix[0]] + (prefix[1..] + xs);
      JoinCons(prefix[0], prefix[1..] + [Join(xs, sep)], sep);
      JoinCons(prefix[0], prefix[1..] + xs, sep);
    }
  }

  /** The layout of the reply: for one-line fields and at least one insight,
      its lines are the bold summary, an empty line, the details, an empty
      line, the header and the insights in order. */
  lemma FormatLines(t: Template)
    requires OneLine(t.summary) && OneLine(t.details)
    requires t.actionableInsight != []
    requires forall i :: 0 <= i < |t.actionableInsight| ==> OneLine(t.actionableInsight[i])
    ensures Lines(Format(t)) == ["**" + t.summary + "**", "", t.details, "", HEADER] + t.actionableInsight
  {
    var bold := "**" + t.summary + "**";
    var ins := t.actionableInsight;
    var pre := [bold, "", t.details, "", HEADER];
    var xs := pre + ins;
    FormatIsJoin(t);
    JoinFlatten(pre, ins, "\n");
    assert pre + [Join(ins, "\n")] == [bold, "", t.details, "", HEADER, Join(ins, "\n")];
    assert OneLine(bold);
    assert OneLine(HEADER);
    assert forall i :: 0 <= i < |xs| ==> OneLine(xs[i]) by {
      forall i | 0 <= i < |xs| ensures OneLine(xs[i]) {
        if i >= 5 {
          assert xs[i] == ins[i - 5];
        }
      }
    }
    LinesOfJoin(xs);
  }

  /** The request body: `message` and `userId`, each possibly absent. */
  datatype ChatRequest = ChatRequest(message: Option<string>, userId: Option<string>)

  /** The three replies of the route: 400, 200 with the reply and the
      template, 500 with an apology. */
  datatype ChatResponse =
    | BadRequest(error: string)
    | Reply(reply: string, structured: Template)
    | InternalError(error: string, reply: string)

  const APOLOGY := "I apologize, but I encountered an error processing your request. Please try again."

  /** `!message`: absent, or the empty string. */
  predicate Falsy(message: Option<string>) {
    message.None? || message.value == ""
  }

  /** `POST /api/chat`. */
  function HandleChat(users: map<string, Snapshot>, show: int -> string, req: ChatRequest): (resp: ChatResponse)
    ensures resp.BadRequest? <==> Falsy(req.message)
    ensures resp.BadRequest? ==> resp.error == "Message is required"
    ensures resp.Reply? ==> resp.reply == Format(resp.structured)
  {
    if Falsy(req.message) then
      BadRequest("Message is required")
    else
      match GenerateResponse(users, show, req.message.value, req.userId)
      case Success(t) => Reply(Format(t), t)
      case Failure(_) => InternalError("Internal server error", APOLOGY)
  }

  /** A present message is answered with the generator's own template,
      unchanged, and its rendering; only a generator failure gives 500. */
  lemma ReplyCarriesTemplate(users: map<string, Snapshot>, show: int -> string, req: ChatRequest)
    requires !Falsy(req.message)
    ensures var g := GenerateResponse(users, show, req.message.value, req.userId);
      && (g.Success? ==> HandleChat(users, show, req) == Reply(Format(g.value), g.value))
      && (g.Failure? ==> HandleChat(users, show, req).InternalError?)
  {
  }

  /** With the mock table every present message gets a 200 reply. */
  lemma MockAlwaysReplies(show: int -> string, req: ChatRequest)
    requires !Falsy(req.message)
    ensures HandleChat(MOCK_USER_DATA, show, req).Reply?
  {
    ResponderFacts.MockNeverFails(show, req.message.value, req.userId);
  }
}
