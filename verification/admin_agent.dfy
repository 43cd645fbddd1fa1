/** The deterministic part of `run_admin_command`: folding the caller's
    conversation history into `ROLE: content` lines and placing the current
    request and that history block in the agent's task description. */
module AdminAgent {
  import opened Wrappers
  import opened PyStr
  import opened PyJson

  /** One history entry as the caller sends it: a dict that normally holds
      `role` and `content`. */
  type Turn = map<string, Json>

  /** `msg.get('role', 'user')`. */
  function RoleOf(t: Turn): Json {
    GetOr(t, "role", JStr("user"))
  }

  /** `msg.get('content', '')`. */
  function ContentOf(t: Turn): Json {
    GetOr(t, "content", JStr(""))
  }

  /** `f"{role.upper()}: {content}\n"`; only a string role has `upper`. */
  function TurnLine(c: Codec, t: Turn): (r: Result<string, PyError>)
    ensures r.Success? <==> RoleOf(t).JStr?
    ensures r.Failure? ==> r.error == AttributeError(TypeName(RoleOf(t)), "upper")
  {
    match RoleOf(t)
    case JStr(role) => Success(Upper(role) + ": " + StrOf(c, ContentOf(t)) + "\n")
    case other => Failure(AttributeError(TypeName(other), "upper"))
  }

  /** Both results joined, the first failure winning. */
  function Concat(a: Result<string, PyError>, b: Result<string, PyError>): Result<string, PyError> {
    if a.Failure? then a else if b.Failure? then b else Success(a.value + b.value)
  }

  /** `history_str`: one line per turn, oldest first. The first turn whose
      role is not a string raises, and that exception is the outcome. */
  function FormatHistory(c: Codec, h: seq<Turn>): (r: Result<string, PyError>)
    ensures r.Success? <==> forall i :: 0 <= i < |h| ==> RoleOf(h[i]).JStr?
  {
    if h == [] then Success("")
    else
      assert forall i :: 1 <= i < |h| ==> h[i] == h[1..][i - 1];
      Concat(TurnLine(c, h[0]), FormatHistory(c, h[1..]))
  }

  /** The exception that ends the loop is the one raised by the earliest
      turn whose role is not a string. */
  lemma {:induction false} FirstBadRoleRaises(c: Codec, h: seq<Turn>, i: nat)
    requires i < |h| && !RoleOf(h[i]).JStr?
    requires forall j :: 0 <= j < i ==> RoleOf(h[j]).JStr?
    ensures FormatHistory(c, h) == Failure(AttributeError(TypeName(RoleOf(h[i])), "upper"))
    decreases i
  {
    if i > 0 {
      assert forall j :: 0 <= j < i - 1 ==> h[1..][j] == h[j + 1];
      FirstBadRoleRaises(c, h[1..], i - 1);
    }
  }

  /** Formatting distributes over concatenation of histories. */
  lemma {:induction false} FormatHistoryAppend(c: Codec, h1: seq<Turn>, h2: seq<Turn>)
    ensures FormatHistory(c, h1 + h2) == Concat(FormatHistory(c, h1), FormatHistory(c, h2))
    decreases |h1|
  {
    if h1 == [] {
      assert h1 + h2 == h2;
      if FormatHistory(c, h2).Success? {
        assert "" + FormatHistory(c, h2).value == FormatHistory(c, h2).value;
      }
    } else {
      assert (h1 + h2)[0] == h1[0];
      assert (h1 + h2)[1..] == h1[1..] + h2;
      var head := TurnLine(c, h1[0]);
      assert FormatHistory(c, h1 + h2) == Concat(head, FormatHistory(c, h1[1..] + h2));
      assert FormatHistory(c, h1) == Concat(head, FormatHistory(c, h1[1..]));
      FormatHistoryAppend(c, h1[1..], h2);
      ConcatAssoc(head, FormatHistory(c, h1[1..]), FormatHistory(c, h2));
    }
  }

  lemma ConcatAssoc(a: Result<string, PyError>, b: Result<string, PyError>, d: Result<string, PyError>)
    ensures Concat(a, Concat(b, d)) == Concat(Concat(a, b), d)
  {
    if a.Success? && b.Success? && d.Success? {
      assert a.value + (b.value + d.value) == (a.value + b.value) + d.value;
    }
  }

  /** A single turn gives exactly one line: the upper-cased role, a colon,
      and the content copied verbatim. */
  lemma SingleTurn(c: Codec, t: Turn)
    requires RoleOf(t).JStr?
    ensures FormatHistory(c, [t]) == Success(Upper(RoleOf(t).s) + ": " + StrOf(c, ContentOf(t)) + "\n")
  {
    assert [t][1..] == [];
    var line := Upper(RoleOf(t).s) + ": " + StrOf(c, ContentOf(t)) + "\n";
    assert line + "" == line;
  }

  /** An empty history gives an empty block; missing keys default to role
      `user` and empty content. */
  lemma HistoryDefaults(c: Codec)
    ensures FormatHistory(c, []) == Success("")
    ensures FormatHistory(c, [map[]]) == Success("USER: \n")
  {
    SingleTurn(c, map[]);
    var u := Upper("user");
    assert u[0] == 'U' && u[1] == 'S' && u[2] == 'E' && u[3] == 'R';
    assert u == "USER";
    assert StrOf(c, ContentOf(map[])) == "";
    assert u + ": " + "" + "\n" == "USER: \n";
  }

  /** One iteration of the loop: a good turn appends its line, and a bad
      turn's exception is the outcome for the whole history. */
  lemma HistoryStep(c: Codec, h: seq<Turn>, i: nat)
    requires i < |h| && FormatHistory(c, h[..i]).Success?
    ensures TurnLine(c, h[i]).Success? ==>
      FormatHistory(c, h[..i + 1]) == Success(FormatHistory(c, h[..i]).value + TurnLine(c, h[i]).value)
    ensures TurnLine(c, h[i]).Failure? ==> FormatHistory(c, h) == TurnLine(c, h[i])
  {
    var t := TurnLine(c, h[i]);
    assert h[..i + 1] == h[..i] + [h[i]];
    FormatHistoryAppend(c, h[..i], [h[i]]);
    LoneTurn(c, h[i]);
    assert FormatHistory(c, h[..i + 1]) == Concat(FormatHistory(c, h[..i]), t);
    if t.Failure? {
      assert h[..i + 1] + h[i + 1..] == h;
      FormatHistoryAppend(c, h[..i + 1], h[i + 1..]);
    }
  }

  /** A history of one turn formats to that turn's line, or its exception. */
  lemma LoneTurn(c: Codec, t: Turn)
    ensures FormatHistory(c, [t]) == TurnLine(c, t)
  {
    assert [t][1..] == [];
    if TurnLine(c, t).Success? {
      var line := TurnLine(c, t).value;
      assert line + "" == line;
    }
  }

  /** The loop in `run_admin_command`, accumulating with `+=`. */
  method BuildHistory(c: Codec, h: seq<Turn>) returns (r: Result<string, PyError>)
    ensures r == FormatHistory(c, h)
  {
    var acc := "";
    var i := 0;
    while i < |h|
      invariant 0 <= i <= |h|
      invariant FormatHistory(c, h[..i]) == Success(acc)
    {
      HistoryStep(c, h, i);
      match TurnLine(c, h[i]) {
        case Failure(e) =>
          return Failure(e);
        case Success(line) =>
          acc := acc + line;
      }
      i := i + 1;
    }
    assert h[..i] == h;
    r := Success(acc);
  }

  /** A string with no line break. */
  predicate OneLine(s: string) {
    '\n' !in s
  }

  lemma UpperKeepsOneLine(s: string)
    requires OneLine(s)
    ensures OneLine(Upper(s))
  {
    assert forall k :: 0 <= k < |s| ==> Upper(s)[k] != '\n';
  }

  /** With line-free roles and string contents, the history block has
      exactly one line break per turn. */
  lemma {:induction false} OneLinePerTurn(c: Codec, h: seq<Turn>)
    requires forall i :: 0 <= i < |h| ==> RoleOf(h[i]).JStr? && OneLine(RoleOf(h[i]).s)
    requires forall i :: 0 <= i < |h| ==> ContentOf(h[i]).JStr? && OneLine(ContentOf(h[i]).s)
    ensures FormatHistory(c, h).Success?
    ensures Count(FormatHistory(c, h).value, '\n') == |h|
    decreases |h|
  {
    if h != [] {
      assert forall i :: 1 <= i < |h| ==> h[i] == h[1..][i - 1];
      OneLinePerTurn(c, h[1..]);
      var role := RoleOf(h[0]).s;
      var content := ContentOf(h[0]).s;
      UpperKeepsOneLine(role);
      CountAbsent(Upper(role), '\n');
      CountAbsent(content, '\n');
      var line := Upper(role) + ": " + content + "\n";
      CountAppend(Upper(role), ": ", '\n');
      CountAppend(Upper(role) + ": ", content, '\n');
      CountAppend(Upper(role) + ": " + content, "\n", '\n');
      CountAppend(line, FormatHistory(c, h[1..]).value, '\n');
    }
  }

  /** The parts of the task description around the two inserted values. */
  const TaskLead: string := "\n        Current User Request: \""
  const TaskMiddle: string := "\"\n        \n        Conversation History:\n        "
  const TaskInstructions: string :=
    "\n        \n        INSTRUCTIONS:\n"
    + "        1. Analyze the request and history.\n"
    + "        2. If the user's intent is ambiguous (e.g., \"create a ticket\" could be Incident, Change, or Problem), DO NOT GUESS.\n"
    + "           Instead, return a response asking the user to clarify (e.g., \"Did you mean an Incident or a Change Request?\").\n"
    + "           You can also list options for them to choose from.\n"
    + "        3. If the request is clear (e.g., \"Create an Incident\"), identify the table and fields.\n"
    + "        4. Use the appropriate tool (Query, Create, Update) ONLY when you are sure.\n"
    + "        \n"
    + "        If creating a record, generate realistic dummy data for required fields ONLY if the user hasn't specified them.\n"
    + "        "

  /** The description handed to the agent's task; it fails exactly when
      formatting the history raises, before any agent is built. */
  function TaskDescription(c: Codec, request: string, h: seq<Turn>): (r: Result<string, PyError>)
    ensures r.Success? <==> FormatHistory(c, h).Success?
  {
    var block :- FormatHistory(c, h);
    Success(TaskLead + request + TaskMiddle + block + TaskInstructions)
  }

  /** The request text sits in the description verbatim, and the history
      block comes after it. */
  lemma RequestBeforeHistory(c: Codec, request: string, h: seq<Turn>)
    requires FormatHistory(c, h).Success?
    ensures var d := TaskDescription(c, request, h).value;
      var block := FormatHistory(c, h).value;
      var at := |TaskLead|;
      var from := at + |request| + |TaskMiddle|;
      && from + |block| <= |d|
      && d[at..at + |request|] == request
      && d[from..from + |block|] == block
      && at + |request| < from
  {
    var block := FormatHistory(c, h).value;
    assert TaskDescription(c, request, h).value == TaskLead + request + TaskMiddle + block + TaskInstructions;
    assert |TaskMiddle| > 0;
    FiveSlices(TaskLead, request, TaskMiddle, block, TaskInstructions);
  }

  /** Where the second and fourth of five concatenated pieces sit. */
  lemma FiveSlices(a: string, b: string, m: string, d: string, e: string)
    ensures var s := a + b + m + d + e;
      var from := |a| + |b| + |m|;
      && from + |d| <= |s|
      && s[|a|..|a| + |b|] == b
      && s[from..from + |d|] == d
  {
    var s := a + b + m + d + e;
    assert s == a + (b + (m + (d + e)));
  }
}
