/** The composing agent: the generate / validate / route loop that asks a
    language model for a melody in `NOTE:DURATION` text and retries with the
    validation error, and the listing of the models a user may pick from. */
module Agent {
  import opened Wrappers
  import opened Text
  import PyFloat
  import Synthesizer

  /** The graph state `AgentState`. The retry counter starts at zero and only
      ever grows, so it is a `nat`. */
  datatype AgentState = AgentState(topic: string, notes: string, isValid: bool, error: string, retries: nat)

  /** What `validate_step` writes into the state. */
  datatype Verdict = Verdict(isValid: bool, error: string)

  /** The two edges `should_continue` can choose. */
  datatype Route = End | Retry

  // ---------------------------------------------------------------------
  // Cleaning the model's reply
  // ---------------------------------------------------------------------

  /** `content.strip().replace("`", "").replace("python", "")`: drops the
      surrounding whitespace, every backtick and every "python" tag. */
  function CleanContent(content: string): (r: string)
    ensures '`' !in r
    ensures |r| <= |content|
  {
    RemoveAll(RemoveAll(Strip(content), "`"), "python")
  }

  /** `pat` occurs nowhere in `s`. */
  predicate NoOccurrence(s: string, pat: string)
    decreases |s|
  {
    |s| < |pat| || (s[..|pat|] != pat && NoOccurrence(s[1..], pat))
  }

  /** A character that does not occur is a one-character pattern that does
      not occur. */
  lemma {:induction false} AbsentChar(s: string, c: char)
    requires c !in s
    ensures NoOccurrence(s, [c])
  {
    if s != [] {
      assert s[..1] == [s[0]];
      assert c !in s[1..];
      AbsentChar(s[1..], c);
    }
  }

  /** Removing a pattern that does not occur changes nothing. */
  lemma {:induction false} RemoveAllAbsent(s: string, pat: string)
    requires pat != [] && NoOccurrence(s, pat)
    ensures RemoveAll(s, pat) == s
    decreases |s|
  {
    if |s| >= |pat| {
      RemoveAllAbsent(s[1..], pat);
      assert s == [s[0]] + s[1..];
    }
  }

  /** A reply that is already a bare melody (no surrounding whitespace, no
      backtick, no "python") comes through the cleaning unchanged. */
  lemma CleanKeepsBareReply(content: string)
    requires Strip(content) == content
    requires '`' !in content && NoOccurrence(content, "python")
    ensures CleanContent(content) == content
  {
    AbsentChar(content, '`');
    RemoveAllAbsent(content, "`");
    RemoveAllAbsent(content, "python");
  }

  /** A reply wrapped in code fences loses its backticks and its surrounding
      whitespace, and nothing else, when it holds no "python" tag. */
  lemma CleanDropsFences(content: string)
    requires NoOccurrence(Without(Strip(content), '`'), "python")
    ensures CleanContent(content) == Without(Strip(content), '`')
  {
    RemoveAllAbsent(Without(Strip(content), '`'), "python");
  }

  /** The usual fenced reply, "```python", a newline, the melody, a newline
      and "```", cleans to the melody between its two newlines. */
  lemma CleanFencedReply(body: string)
    requires '`' !in body && NoOccurrence(body, "python")
    ensures CleanContent("```python\n" + body + "\n```") == "\n" + body + "\n"
  {
    var content := "```python\n" + body + "\n```";
    StripUnspaced(content);
    Unfenced(body);
    DropLeadingTag(body);
  }

  /** A string that neither starts nor ends with whitespace is its own strip. */
  lemma StripUnspaced(s: string)
    requires s != [] && !IsSpace(s[0]) && !IsSpace(s[|s| - 1])
    ensures Strip(s) == s
  {
    assert SkipSpaces(s) == s;
  }

  /** Dropping the backticks of the fenced reply leaves the tagged melody. */
  lemma Unfenced(body: string)
    requires '`' !in body
    ensures Without("```python\n" + body + "\n```", '`') == "python\n" + body + "\n"
  {
    var fence, tag, nl := "```", "python\n", "\n";
    assert "```python\n" + body + "\n```" == fence + (tag + body + nl) + fence;
    assert Without(fence, '`') == [];
    WithoutAbsent(tag + body + nl, '`');
    WithoutAppend(fence, tag + body + nl, '`');
    WithoutAppend(fence + (tag + body + nl), fence, '`');
  }

  /** Removing "python" from the tagged melody drops only the tag. */
  lemma DropLeadingTag(body: string)
    requires NoOccurrence(body, "python")
    ensures RemoveAll("python\n" + body + "\n", "python") == "\n" + body + "\n"
  {
    var tagged := "python\n" + body + "\n";
    var rest := "\n" + body + "\n";
    assert tagged[..6] == "python" && tagged[6..] == rest;
    NoOccurrenceSnoc(body, '\n', "python");
    NoOccurrenceCons('\n', body + "\n", "python");
    assert rest == ['\n'] + (body + "\n");
    RemoveAllAbsent(rest, "python");
  }

  /** Putting a character that cannot start `pat` in front keeps `pat` absent. */
  lemma NoOccurrenceCons(x: char, s: string, pat: string)
    requires pat != [] && x != pat[0] && NoOccurrence(s, pat)
    ensures NoOccurrence([x] + s, pat)
  {
    assert ([x] + s)[1..] == s;
    if |[x] + s| >= |pat| {
      assert ([x] + s)[..|pat|][0] == x;
    }
  }

  /** Appending a character that `pat` does not contain keeps `pat` absent. */
  lemma {:induction false} NoOccurrenceSnoc(s: string, x: char, pat: string)
    requires pat != [] && x !in pat && NoOccurrence(s, pat)
    ensures NoOccurrence(s + [x], pat)
    decreases |s|
  {
    if |s + [x]| >= |pat| {
      if |pat| <= |s| {
        assert (s + [x])[..|pat|] == s[..|pat|];
        NoOccurrenceSnoc(s[1..], x, pat);
        assert (s + [x])[1..] == s[1..] + [x];
      } else {
        assert (s + [x])[..|pat|][|pat| - 1] == x;
        assert pat[|pat| - 1] in pat;
        if s != [] {
          NoOccurrenceSnoc(s[1..], x, pat);
          assert (s + [x])[1..] == s[1..] + [x];
        } else {
          assert s + [x] == [x];
        }
      }
    }
  }

  // ---------------------------------------------------------------------
  // Validation
  // ---------------------------------------------------------------------

  /** Why `validate_step` rejects a token. */
  datatype Reason = MissingDuration | BadFormat | InvalidNote | InvalidDuration

  /** One entry of `invalid_tokens`: the token and why it was rejected. */
  datatype Complaint = Complaint(token: string, reason: Reason)

  function ReasonText(r: Reason): string {
    match r
    case MissingDuration => "missing duration"
    case BadFormat => "bad format"
    case InvalidNote => "invalid note"
    case InvalidDuration => "invalid duration"
  }

  /** The text `f"{token} ({reason})"` that stands for a complaint. */
  function Describe(c: Complaint): (d: string)
    ensures c.token + " (" <= d
  {
    c.token + " (" + ReasonText(c.reason) + ")"
  }

  /** The complaints `validate_step` records for one token, in the order it
      appends them: a token without ':' or with more than one ':' gets one
      complaint and is skipped; otherwise the note and the duration are
      checked independently. */
  function TokenFlags(token: string): (r: seq<Complaint>)
    ensures forall k :: 0 <= k < |r| ==> r[k].token == token
    ensures ':' !in token ==> r == [Complaint(token, MissingDuration)]
    ensures ':' in token && |SplitOn(token, ':')| != 2 ==> r == [Complaint(token, BadFormat)]
    ensures r == [] <==>
      && |SplitOn(token, ':')| == 2
      && NoteAccepted(SplitOn(token, ':')[0])
      && PyFloat.Parse(SplitOn(token, ':')[1]).Some?
  {
    Synthesizer.CountZero(token, ':');
    if ':' !in token then [Complaint(token, MissingDuration)]
    else if |SplitOn(token, ':')| != 2 then [Complaint(token, BadFormat)]
    else NoteFlags(token, SplitOn(token, ':')[0]) + DurationFlags(token, SplitOn(token, ':')[1])
  }

  /** A note is accepted when it is a rest ("R" or "REST" in any case) or at
      least two characters long. */
  predicate NoteAccepted(note: string) {
    Upper(note) == "R" || Upper(note) == "REST" || |note| >= 2
  }

  function NoteFlags(token: string, note: string): (r: seq<Complaint>)
    ensures r == [] <==> NoteAccepted(note)
    ensures forall k :: 0 <= k < |r| ==> r[k].token == token
  {
    if !NoteAccepted(note) then [Complaint(token, InvalidNote)] else []
  }

  /** A duration is accepted when `float` does not raise on it. */
  function DurationFlags(token: string, duration: string): (r: seq<Complaint>)
    ensures r == [] <==> PyFloat.Parse(duration).Some?
    ensures forall k :: 0 <= k < |r| ==> r[k].token == token
  {
    if PyFloat.Parse(duration).None? then [Complaint(token, InvalidDuration)] else []
  }

  /** `f` applied to every element, the results concatenated in order. */
  function FlatMap<T>(f: string -> seq<T>, xs: seq<string>): seq<T> {
    if xs == [] then [] else FlatMap(f, xs[..|xs| - 1]) + f(xs[|xs| - 1])
  }

  /** Every complaint about a list of tokens, token by token. */
  function AllFlags(tokens: seq<string>): seq<Complaint> {
    FlatMap(TokenFlags, tokens)
  }

  /** The texts of a list of complaints. */
  function DescribeAll(cs: seq<Complaint>): seq<string> {
    seq(|cs|, k requires 0 <= k < |cs| => Describe(cs[k]))
  }

  /** Python's `xs[:n]`. */
  function Take<T>(xs: seq<T>, n: nat): seq<T> {
    if |xs| <= n then xs else xs[..n]
  }

  /** The outcome of `validate_step` on the notes text. */
  function Validate(notes: string): (v: Verdict)
    ensures v.isValid <==> v.error == ""
    ensures v.isValid ==> |Split(notes)| >= 2
    ensures notes == "" ==> v == Verdict(false, "Output was empty")
    ensures notes != "" && |Split(notes)| < 2 ==> v == Verdict(false, "Melody too short")
  {
    if notes == [] then Verdict(false, "Output was empty")
    else if |Split(notes)| < 2 then Verdict(false, "Melody too short")
    else if AllFlags(Split(notes)) == [] then Verdict(true, "")
    else Verdict(false, "Invalid tokens: " + JoinWith(DescribeAll(Take(AllFlags(Split(notes)), 3)), ", "))
  }

  /** `validate_step`: scans the tokens once, collecting complaints. */
  method ValidateStep(notes: string) returns (isValid: bool, error: string)
    ensures Verdict(isValid, error) == Validate(notes)
  {
    if notes == [] {
      return false, "Output was empty";
    }
    var validNotes := true;
    var invalidTokens: seq<Complaint> := [];
    var tokens := Split(notes);
    if |tokens| < 2 {
      return false, "Melody too short";
    }
    var i := 0;
    while i < |tokens|
      invariant 0 <= i <= |tokens|
      invariant invalidTokens == AllFlags(tokens[..i])
      invariant validNotes <==> invalidTokens == []
    {
      FlatMapSnoc(TokenFlags, tokens, i);
      var flagged;
      flagged, invalidTokens := CheckToken(tokens[i], invalidTokens);
      if flagged {
        validNotes := false;
      }
      i := i + 1;
    }
    assert tokens[..i] == tokens;
    if validNotes {
      return true, "";
    }
    return false, "Invalid tokens: " + JoinWith(DescribeAll(Take(invalidTokens, 3)), ", ");
  }

  /** The body of `validate_step`'s loop for one token: appends the token's
      complaints to `before` and reports whether there were any. */
  method CheckToken(token: string, before: seq<Complaint>) returns (flagged: bool, after: seq<Complaint>)
    ensures after == before + TokenFlags(token)
    ensures flagged <==> TokenFlags(token) != []
  {
    flagged, after := false, before;
    if ':' !in token {
      flagged := true;
      after := after + [Complaint(token, MissingDuration)];
      assert TokenFlags(token) == [Complaint(token, MissingDuration)];
      return;
    }
    var parts := SplitOn(token, ':');
    if |parts| != 2 {
      flagged := true;
      after := after + [Complaint(token, BadFormat)];
      assert TokenFlags(token) == [Complaint(token, BadFormat)];
      return;
    }
    var note, duration := parts[0], parts[1];
    assert TokenFlags(token) == NoteFlags(token, note) + DurationFlags(token, duration);
    if !(Upper(note) == "R" || Upper(note) == "REST") && |note| < 2 {
      flagged := true;
      after := after + [Complaint(token, InvalidNote)];
    }
    ghost var noted := after;
    assert noted == before + NoteFlags(token, note);
    if PyFloat.Parse(duration).None? {
      flagged := true;
      after := after + [Complaint(token, InvalidDuration)];
    }
    assert after == noted + DurationFlags(token, duration);
    AppendAssoc(before, NoteFlags(token, note), DurationFlags(token, duration));
  }

  lemma AppendAssoc<T>(a: seq<T>, b: seq<T>, c: seq<T>)
    ensures a + (b + c) == (a + b) + c
  {
  }

  /** The concatenation is empty exactly when every part is. */
  lemma {:induction false} FlatMapEmpty<T>(f: string -> seq<T>, xs: seq<string>)
    ensures FlatMap(f, xs) == [] <==> forall k :: 0 <= k < |xs| ==> f(xs[k]) == []
  {
    if xs != [] {
      var init := xs[..|xs| - 1];
      FlatMapEmpty(f, init);
      assert forall k :: 0 <= k < |init| ==> init[k] == xs[k];
    }
  }

  /** One more element adds its own results at the end. */
  lemma FlatMapSnoc<T>(f: string -> seq<T>, xs: seq<string>, i: nat)
    requires i < |xs|
    ensures FlatMap(f, xs[..i + 1]) == FlatMap(f, xs[..i]) + f(xs[i])
  {
    assert xs[..i + 1][..i] == xs[..i];
  }

  /** The notes pass validation exactly when they hold at least two tokens
      and every token is accepted on its own. */
  lemma ValidIffEveryTokenAccepted(notes: string)
    ensures Validate(notes).isValid
        <==> |Split(notes)| >= 2 && forall k :: 0 <= k < |Split(notes)| ==> TokenFlags(Split(notes)[k]) == []
  {
    FlatMapEmpty(TokenFlags, Split(notes));
  }

  /** A token is accepted exactly when it is `note:duration` with a single
      ':', an accepted note and a duration `float` can read. */
  lemma TokenAcceptedIff(token: string, note: string, duration: string)
    requires ':' !in note && ':' !in duration
    ensures token == note + ":" + duration ==>
              (TokenFlags(token) == [] <==> NoteAccepted(note) && PyFloat.Parse(duration).Some?)
    ensures TokenFlags(token) == [] && SplitOn(token, ':') == [note, duration] ==>
              NoteAccepted(note) && PyFloat.Parse(duration).Some?
  {
    SplitOnTwo(token, ':', note, duration);
    if token == note + ":" + duration {
      assert token[|note|] == ':';
    }
  }

  /** What the synthesizer makes of a token the validator accepted: the
      note and the duration it checked, never the one-beat fallback. */
  lemma AcceptedTokenPlays(token: string)
    requires TokenFlags(token) == []
    ensures Synthesizer.ParseToken(token).Ok?
    ensures Synthesizer.ParseToken(token).value.note == SplitOn(token, ':')[0]
    ensures Some(Synthesizer.ParseToken(token).value.multiplier) == PyFloat.Parse(SplitOn(token, ':')[1])
  {
    var parts := SplitOn(token, ':');
    assert |parts| == 2;
    assert Synthesizer.DurationOf(parts[1]) == PyFloat.Parse(parts[1]).value;
  }

  /** An accepted token whose duration reads as infinite or NaN still makes
      the synthesizer raise: validation does not promise a playable melody. */
  lemma AcceptedNonFiniteDurationFails(token: string, beat: real)
    requires TokenFlags(token) == []
    requires !PyFloat.Parse(SplitOn(token, ':')[1]).value.Finite?
    ensures Synthesizer.ParseToken(token).Ok?
    ensures Synthesizer.NoteSeconds(beat, token, Synthesizer.ParseToken(token).value)
            == Err(Synthesizer.NonFiniteDuration(token))
  {
    AcceptedTokenPlays(token);
  }

  /** `sep.join` of a non-empty list starts with its first element. */
  lemma JoinWithStarts(parts: seq<string>, sep: string)
    requires parts != []
    ensures parts[0] <= JoinWith(parts, sep)
  {
  }

  /** Elements without results contribute nothing. */
  lemma {:induction false} FlatMapNone<T>(f: string -> seq<T>, xs: seq<string>)
    requires forall k :: 0 <= k < |xs| ==> f(xs[k]) == []
    ensures FlatMap(f, xs) == []
  {
    if xs != [] {
      var init := xs[..|xs| - 1];
      assert forall k :: 0 <= k < |init| ==> init[k] == xs[k];
      FlatMapNone(f, init);
    }
  }

  /** Elements without results before the first one with results: the
      concatenation starts with that one's first result. */
  lemma {:induction false} FlatMapFirst<T>(f: string -> seq<T>, xs: seq<string>, j: nat)
    requires j < |xs| && f(xs[j]) != []
    requires forall k :: 0 <= k < j ==> f(xs[k]) == []
    ensures FlatMap(f, xs) != [] && FlatMap(f, xs)[0] == f(xs[j])[0]
  {
    var init := xs[..|xs| - 1];
    assert forall k :: 0 <= k < |init| ==> init[k] == xs[k];
    if j == |xs| - 1 {
      FlatMapNone(f, init);
    } else {
      FlatMapFirst(f, init, j);
    }
  }

  /** An invalid melody's error message opens with the first complaint
      about the first rejected token, so the retry prompt points the model
      at the first mistake. */
  lemma ErrorNamesFirstRejectedToken(notes: string, j: nat)
    requires |Split(notes)| >= 2 && j < |Split(notes)|
    requires TokenFlags(Split(notes)[j]) != []
    requires forall k :: 0 <= k < j ==> TokenFlags(Split(notes)[k]) == []
    ensures !Validate(notes).isValid
    ensures "Invalid tokens: " + Describe(TokenFlags(Split(notes)[j])[0]) <= Validate(notes).error
    ensures "Invalid tokens: " + Split(notes)[j] + " (" <= Validate(notes).error
  {
    var ts := Split(notes);
    FlatMapFirst(TokenFlags, ts, j);
    var first := TokenFlags(ts[j])[0];
    ErrorOpensWith(notes, first);
    PrefixAfter("Invalid tokens: ", ts[j] + " (", Describe(first));
    AppendAssoc("Invalid tokens: ", ts[j], " (");
  }

  /** The error of a melody with complaints opens with the first one. */
  lemma ErrorOpensWith(notes: string, first: Complaint)
    requires |Split(notes)| >= 2 && AllFlags(Split(notes)) != [] && AllFlags(Split(notes))[0] == first
    ensures !Validate(notes).isValid
    ensures "Invalid tokens: " + Describe(first) <= Validate(notes).error
  {
    var flags := AllFlags(Split(notes));
    ListingOpensWith(flags, first);
    assert Validate(notes).error == "Invalid tokens: " + JoinWith(DescribeAll(Take(flags, 3)), ", ");
  }

  lemma ListingOpensWith(flags: seq<Complaint>, first: Complaint)
    requires flags != [] && flags[0] == first
    ensures "Invalid tokens: " + Describe(first) <= "Invalid tokens: " + JoinWith(DescribeAll(Take(flags, 3)), ", ")
  {
    var shown := DescribeAll(Take(flags, 3));
    assert shown[0] == Describe(first);
    JoinWithStarts(shown, ", ");
    PrefixAfter("Invalid tokens: ", Describe(first), JoinWith(shown, ", "));
  }

  /** The error of a melody with complaints lists the first three of them,
      or all of them when there are fewer. */
  lemma ErrorListsFirstThree(notes: string)
    requires |Split(notes)| >= 2 && AllFlags(Split(notes)) != []
    ensures exists shown: seq<Complaint> ::
              && 1 <= |shown| <= 3 && shown <= AllFlags(Split(notes))
              && (|shown| < 3 ==> shown == AllFlags(Split(notes)))
              && Validate(notes).error == "Invalid tokens: " + JoinWith(DescribeAll(shown), ", ")
  {
    var shown := Take(AllFlags(Split(notes)), 3);
    assert Validate(notes).error == "Invalid tokens: " + JoinWith(DescribeAll(shown), ", ");
  }

  lemma PrefixAfter(p: string, a: string, b: string)
    requires a <= b
    ensures p + a <= p + b
  {
    assert (p + b)[..|p + a|] == p + a;
  }

  // ---------------------------------------------------------------------
  // The generate / validate / route loop
  // ---------------------------------------------------------------------

  /** The user message of `generate_step`: the topic, and the previous
      validation error when there is one. */
  function UserMessage(topic: string, error: string): string {
    "Compose a melody for: " + topic
      + (if error != "" then "\n\nPREVIOUS ERROR: " + error + "\nPlease fix the format." else "")
  }

  /** `generate_step`. The language model is the parameter `reply`: its
      answer to the user message on the attempt with the given number. */
  function GenerateStep(s: AgentState, reply: (nat, string) -> string): (r: AgentState)
    ensures r.retries == s.retries + 1
    ensures r.topic == s.topic && r.isValid == s.isValid && r.error == s.error
    ensures '`' !in r.notes
  {
    s.(notes := CleanContent(reply(s.retries, UserMessage(s.topic, s.error))), retries := s.retries + 1)
  }

  /** The `validate` node: records the verdict on the current notes. */
  function ValidateNode(s: AgentState): (r: AgentState)
    ensures r.topic == s.topic && r.notes == s.notes && r.retries == s.retries
    ensures Verdict(r.isValid, r.error) == Validate(s.notes)
  {
    s.(isValid := Validate(s.notes).isValid, error := Validate(s.notes).error)
  }

  /** `should_continue`: stop on a valid melody or once more than three
      attempts have been made. */
  function ShouldContinue(s: AgentState): Route {
    if s.isValid then End
    else if s.retries > 3 then End
    else Retry
  }

  /** The state `run` starts the graph with. */
  function InitialState(topic: string): AgentState {
    AgentState(topic, "", false, "", 0)
  }

  /** The graph run from `s`: generate, validate, and go round again while
      `should_continue` says so. */
  function RunFrom(s: AgentState, reply: (nat, string) -> string): AgentState
    decreases if s.retries < 4 then 4 - s.retries else 0
  {
    var t := ValidateNode(GenerateStep(s, reply));
    if ShouldContinue(t) == End then t else RunFrom(t, reply)
  }

  /** From a state with at most three attempts behind it, the run makes at
      least one more attempt, stops after the fourth at the latest, stops
      early only on a valid melody, and stops at the first valid one. */
  lemma {:induction false} RunFromBounds(s: AgentState, reply: (nat, string) -> string)
    requires s.retries <= 3
    ensures ValidateNode(GenerateStep(s, reply)).isValid ==> RunFrom(s, reply) == ValidateNode(GenerateStep(s, reply))
    ensures s.retries < RunFrom(s, reply).retries <= 4
    ensures RunFrom(s, reply).isValid || RunFrom(s, reply).retries == 4
    ensures RunFrom(s, reply).isValid == Validate(RunFrom(s, reply).notes).isValid
    ensures RunFrom(s, reply).topic == s.topic
    decreases 4 - s.retries
  {
    var t := ValidateNode(GenerateStep(s, reply));
    if ShouldContinue(t) == Retry {
      RunFromBounds(t, reply);
    }
  }

  /** `run`: between one and four attempts; a valid first reply ends the run
      after one attempt, the result is valid unless all four failed, and
      its flag agrees with its notes. */
  lemma RunBounds(topic: string, reply: (nat, string) -> string)
    ensures Validate(CleanContent(reply(0, UserMessage(topic, "")))).isValid ==> RunFrom(InitialState(topic), reply).retries == 1
    ensures 1 <= RunFrom(InitialState(topic), reply).retries <= 4
    ensures RunFrom(InitialState(topic), reply).isValid || RunFrom(InitialState(topic), reply).retries == 4
    ensures RunFrom(InitialState(topic), reply).isValid == Validate(RunFrom(InitialState(topic), reply).notes).isValid
    ensures '`' !in RunFrom(InitialState(topic), reply).notes
  {
    RunFromBounds(InitialState(topic), reply);
    RunEndsGenerated(InitialState(topic), reply);
  }

  /** The notes of a finished run are a cleaned reply of the model. */
  lemma {:induction false} RunEndsGenerated(s: AgentState, reply: (nat, string) -> string)
    ensures exists n: nat, m: string :: RunFrom(s, reply).notes == CleanContent(reply(n, m))
    decreases if s.retries < 4 then 4 - s.retries else 0
  {
    var t := ValidateNode(GenerateStep(s, reply));
    if ShouldContinue(t) == End {
      assert t.notes == CleanContent(reply(s.retries, UserMessage(s.topic, s.error)));
    } else {
      RunEndsGenerated(t, reply);
    }
  }

  /** `run`, executing the compiled graph: generate, validate, route. */
  method Run(topic: string, reply: (nat, string) -> string) returns (result: AgentState)
    ensures result == RunFrom(InitialState(topic), reply)
  {
    var s := InitialState(topic);
    while true
      invariant s.retries <= 3
      invariant RunFrom(s, reply) == RunFrom(InitialState(topic), reply)
      decreases 4 - s.retries
    {
      var before := s;
      s := GenerateStep(s, reply);
      var valid, error := ValidateStep(s.notes);
      s := s.(isValid := valid, error := error);
      assert s == ValidateNode(GenerateStep(before, reply));
      if ShouldContinue(s) == End {
        return s;
      }
    }
  }

  // ---------------------------------------------------------------------
  // Listing the models
  // ---------------------------------------------------------------------

  /** A decoded JSON value. */
  datatype Json =
    | JNull
    | JBool(b: bool)
    | JNum(n: real)
    | JStr(s: string)
    | JArr(items: seq<Json>)
    | JObj(fields: map<string, Json>)

  /** How the request to the model listing ended: it raised (no connection,
      timeout), or it answered with a status and a body that decodes as JSON
      or not. */
  datatype Fetch = Unreachable | Answered(status: int, body: Option<Json>)

  /** One listed model that passed through the loop body without raising. */
  datatype ModelEntry = ModelEntry(id: string, free: bool)

  /** The list returned whenever the listing cannot be used. */
  const DefaultFreeModels: seq<string> := [
    "google/gemini-2.0-flash-exp:free",
    "google/gemini-exp-1206:free",
    "meta-llama/llama-3.2-11b-vision-instruct:free",
    "mistralai/mistral-7b-instruct:free",
    "microsoft/phi-3-medium-128k-instruct:free",
    "huggingfaceh4/zephyr-7b-beta:free"
  ]

  predicate EndsWith(s: string, suffix: string) {
    |suffix| <= |s| && s[|s| - |suffix|..] == suffix
  }

  /** `d.get(key, default)`. */
  function Get(d: map<string, Json>, key: string, default: Json): Json {
    if key in d then d[key] else default
  }

  /** `float(x)` on a decoded JSON value: `None` where Python raises
      `ValueError` or `TypeError`. Booleans are the integers 0 and 1. */
  function FloatOf(x: Json): Option<PyFloat.Float> {
    match x
    case JNum(v) => Some(PyFloat.Finite(v))
    case JBool(b) => Some(PyFloat.Finite(if b then 1.0 else 0.0))
    case JStr(s) => PyFloat.Parse(s)
    case _ => None
  }

  /** The value is read by `float` and compares equal to zero. */
  predicate IsZeroPrice(x: Json) {
    FloatOf(x) == Some(PyFloat.Finite(0.0))
  }

  /** Both prices read as zero; a missing price counts as -1. */
  predicate PricedFree(pricing: map<string, Json>) {
    IsZeroPrice(Get(pricing, "prompt", JNum(-1.0))) && IsZeroPrice(Get(pricing, "completion", JNum(-1.0)))
  }

  /** The loop body for one listed model: its id and whether it is free, or
      `None` where an exception escapes to the outer handler (the model is
      not an object, its id is missing or not a string, or its pricing is
      consulted and is not an object). */
  function Entry(m: Json): (r: Option<ModelEntry>)
    ensures r.None? <==>
      || !m.JObj? || "id" !in m.fields || !m.fields["id"].JStr?
      || (!EndsWith(m.fields["id"].s, ":free") && !Get(m.fields, "pricing", JObj(map[])).JObj?)
    ensures r.Some? ==>
      && m.JObj? && "id" in m.fields && m.fields["id"] == JStr(r.value.id)
      && (r.value.free <==>
            || EndsWith(r.value.id, ":free")
            || (Get(m.fields, "pricing", JObj(map[])).JObj?
                && PricedFree(Get(m.fields, "pricing", JObj(map[])).fields)))
  {
    match m
    case JObj(fields) =>
      if "id" !in fields || !fields["id"].JStr? then None
      else
        var mid := fields["id"].s;
        if EndsWith(mid, ":free") then Some(ModelEntry(mid, true))
        else
          var pricing := Get(fields, "pricing", JObj(map[]));
          if !pricing.JObj? then None
          else Some(ModelEntry(mid, PricedFree(pricing.fields)))
    case _ => None
  }

  /** `data.get("data", [])` iterated: `None` where that raises (the body
      is not an object, or the entry is neither a list nor empty). An
      iterated object or string yields strings, whose `get` raises. */
  function ModelList(data: Json): Option<seq<Json>> {
    match data
    case JObj(fields) =>
      (match Get(fields, "data", JArr([]))
       case JArr(items) => Some(items)
       case JObj(f) => if f == map[] then Some([]) else None
       case JStr(s) => if s == [] then Some([]) else None
       case _ => None)
    case _ => None
  }

  /** The ids the filter loop appends, in listing order, or `None` when some
      model makes the loop raise; `entry` is the loop body. */
  function KeptBy(entry: Json -> Option<ModelEntry>, models: seq<Json>, onlyFree: bool): Option<seq<string>> {
    if models == [] then Some([])
    else
      match KeptBy(entry, models[..|models| - 1], onlyFree)
      case None => None
      case Some(ids) =>
        match entry(models[|models| - 1])
        case None => None
        case Some(e) => Some(if !onlyFree || e.free then ids + [e.id] else ids)
  }

  /** The outcome of the filter loop of `get_available_models`. */
  function Kept(models: seq<Json>, onlyFree: bool): Option<seq<string>> {
    KeptBy(Entry, models, onlyFree)
  }

  /** The filter loop of `get_available_models`. */
  method FilterModels(models: seq<Json>, onlyFree: bool) returns (r: Option<seq<string>>)
    ensures r == Kept(models, onlyFree)
  {
    var filtered: seq<string> := [];
    var i := 0;
    while i < |models|
      invariant 0 <= i <= |models|
      invariant Kept(models[..i], onlyFree) == Some(filtered)
    {
      assert models[..i + 1][..i] == models[..i];
      var e := Entry(models[i]);
      if e.None? {
        assert Kept(models[..i + 1], onlyFree) == None;
        KeptNoneGrows(Entry, models, onlyFree, i + 1);
        return None;
      }
      if onlyFree {
        if e.value.free {
          filtered := filtered + [e.value.id];
        }
      } else {
        filtered := filtered + [e.value.id];
      }
      i := i + 1;
    }
    assert models[..i] == models;
    return Some(filtered);
  }

  /** Once the loop has raised on a prefix, it raises on the whole list. */
  lemma {:induction false} KeptNoneGrows(entry: Json -> Option<ModelEntry>, models: seq<Json>, onlyFree: bool, n: nat)
    requires n <= |models| && KeptBy(entry, models[..n], onlyFree) == None
    ensures KeptBy(entry, models, onlyFree) == None
    decreases |models| - n
  {
    if n == |models| {
      assert models[..n] == models;
    } else {
      assert models[..n + 1][..n] == models[..n];
      KeptNoneGrows(entry, models, onlyFree, n + 1);
    }
  }

  /** The loop raises exactly when some model's body raises. */
  lemma {:induction false} KeptFails(entry: Json -> Option<ModelEntry>, models: seq<Json>, onlyFree: bool)
    ensures KeptBy(entry, models, onlyFree).None? <==> exists k :: 0 <= k < |models| && entry(models[k]).None?
  {
    if models != [] {
      var init := models[..|models| - 1];
      KeptFails(entry, init, onlyFree);
      assert forall k :: 0 <= k < |init| ==> init[k] == models[k];
    }
  }

  /** A model that passes the filter: listed, readable, and free when only
      free models are wanted. */
  predicate SelectedBy(entry: Json -> Option<ModelEntry>, models: seq<Json>, onlyFree: bool, k: int, id: string) {
    0 <= k < |models| && entry(models[k]).Some? && entry(models[k]).value.id == id
      && (onlyFree ==> entry(models[k]).value.free)
  }

  /** The kept ids are exactly the ids of the selected models. */
  lemma {:induction false} KeptMembers(entry: Json -> Option<ModelEntry>, models: seq<Json>, onlyFree: bool, id: string)
    requires KeptBy(entry, models, onlyFree).Some?
    ensures id in KeptBy(entry, models, onlyFree).value <==> exists k :: SelectedBy(entry, models, onlyFree, k, id)
  {
    if models != [] {
      var init := models[..|models| - 1];
      KeptMembers(entry, init, onlyFree, id);
      if id in KeptBy(entry, models, onlyFree).value {
        if id !in KeptBy(entry, init, onlyFree).value {
          assert SelectedBy(entry, models, onlyFree, |models| - 1, id);
        } else {
          var k :| SelectedBy(entry, init, onlyFree, k, id);
          assert SelectedBy(entry, models, onlyFree, k, id);
        }
      }
      if exists k :: SelectedBy(entry, models, onlyFree, k, id) {
        var k :| SelectedBy(entry, models, onlyFree, k, id);
        if k < |init| {
          assert SelectedBy(entry, init, onlyFree, k, id);
        }
      }
    }
  }

  /** The result of `get_available_models(api_key, only_free)` when the
      request ends as `fetch`. */
  function AvailableModels(apiKey: Option<string>, onlyFree: bool, fetch: Fetch): seq<string> {
    if apiKey.None? || apiKey.value == [] then DefaultFreeModels
    else match fetch
      case Unreachable => DefaultFreeModels
      case Answered(status, body) =>
        if status != 200 || body.None? then DefaultFreeModels
        else match ModelList(body.value)
          case None => DefaultFreeModels
          case Some(models) =>
            match Kept(models, onlyFree)
            case None => DefaultFreeModels
            case Some(ids) => if Sort(ids) == [] && onlyFree then DefaultFreeModels else Sort(ids)
  }

  /** `get_available_models`: the request is the parameter `fetch`. */
  method GetAvailableModels(apiKey: Option<string>, onlyFree: bool, fetch: Fetch) returns (r: seq<string>)
    ensures r == AvailableModels(apiKey, onlyFree, fetch)
  {
    if apiKey.None? || apiKey.value == [] {
      return DefaultFreeModels;
    }
    if fetch.Unreachable? || fetch.status != 200 || fetch.body.None? {
      return DefaultFreeModels;
    }
    var models := ModelList(fetch.body.value);
    if models.None? {
      return DefaultFreeModels;
    }
    var filtered := FilterModels(models.value, onlyFree);
    if filtered.None? {
      return DefaultFreeModels;
    }
    var sorted := Sort(filtered.value);
    if sorted == [] && onlyFree {
      return DefaultFreeModels;
    }
    return sorted;
  }

  /** Every fallback id names a free model. */
  lemma DefaultsAreFree()
    ensures forall id :: id in DefaultFreeModels ==> EndsWith(id, ":free")
  {
    FreeSuffix("google/gemini-2.0-flash-exp");
    FreeSuffix("google/gemini-exp-1206");
    FreeSuffix("meta-llama/llama-3.2-11b-vision-instruct");
    FreeSuffix("mistralai/mistral-7b-instruct");
    FreeSuffix("microsoft/phi-3-medium-128k-instruct");
    FreeSuffix("huggingfaceh4/zephyr-7b-beta");
  }

  /** A name followed by ":free" ends with ":free". */
  lemma FreeSuffix(name: string)
    ensures EndsWith(name + ":free", ":free")
  {
    assert (name + ":free")[|name|..] == ":free";
  }

  /** Without a key, when the request fails, or when the listing cannot be
      read, the fallback list is returned. */
  lemma FallsBackToDefaults(apiKey: Option<string>, onlyFree: bool, fetch: Fetch)
    requires || apiKey.None? || apiKey == Some("")
             || fetch.Unreachable? || fetch.status != 200 || fetch.body.None?
             || ModelList(fetch.body.value).None?
             || Kept(ModelList(fetch.body.value).value, onlyFree).None?
    ensures AvailableModels(apiKey, onlyFree, fetch) == DefaultFreeModels
  {
  }

  /** With a usable listing, the result is the sorted list of exactly the
      selected ids, unless only free models are wanted and none is free. */
  lemma ListingSelects(apiKey: string, onlyFree: bool, data: Json, models: seq<Json>, id: string)
    requires apiKey != []
    requires ModelList(data) == Some(models) && Kept(models, onlyFree).Some?
    requires !onlyFree || exists k, i :: SelectedBy(Entry, models, onlyFree, k, i)
    ensures Sorted(AvailableModels(Some(apiKey), onlyFree, Answered(200, Some(data))))
    ensures id in AvailableModels(Some(apiKey), onlyFree, Answered(200, Some(data)))
            <==> exists k :: SelectedBy(Entry, models, onlyFree, k, id)
    ensures multiset(AvailableModels(Some(apiKey), onlyFree, Answered(200, Some(data))))
         == multiset(Kept(models, onlyFree).value)
  {
    var ids := Kept(models, onlyFree).value;
    if onlyFree {
      var k, i :| SelectedBy(Entry, models, onlyFree, k, i);
      KeptMembers(Entry, models, onlyFree, i);
      assert i in multiset(ids);
    }
    KeptMembers(Entry, models, onlyFree, id);
    assert id in Sort(ids) <==> id in multiset(Sort(ids));
  }

  /** When only free models are wanted and the listing has none, the
      fallback list is returned. */
  lemma NoFreeModelFallsBack(apiKey: string, data: Json, models: seq<Json>)
    requires apiKey != []
    requires ModelList(data) == Some(models) && Kept(models, true).Some?
    requires forall k, id :: !SelectedBy(Entry, models, true, k, id)
    ensures AvailableModels(Some(apiKey), true, Answered(200, Some(data))) == DefaultFreeModels
  {
    var ids := Kept(models, true).value;
    if ids != [] {
      KeptMembers(Entry, models, true, ids[0]);
      assert false;
    }
    assert multiset(Sort(ids)) == multiset{};
  }

  /** With `only_free`, every returned id ends in ":free" or belongs to a
      listed model whose prompt and completion prices both read as zero. */
  lemma OnlyFreeIds(apiKey: Option<string>, fetch: Fetch, id: string)
    requires id in AvailableModels(apiKey, true, fetch)
    ensures || EndsWith(id, ":free")
            || (fetch.Answered? && fetch.body.Some? && ModelList(fetch.body.value).Some?
                && exists k :: SelectedBy(Entry, ModelList(fetch.body.value).value, true, k, id))
  {
    var r := AvailableModels(apiKey, true, fetch);
    if r == DefaultFreeModels {
      DefaultsAreFree();
    } else {
      var models := ModelList(fetch.body.value).value;
      var ids := Kept(models, true).value;
      assert id in multiset(Sort(ids));
      KeptMembers(Entry, models, true, id);
    }
  }

  /** A free entry that does not end in ":free" has both prices at zero. */
  lemma FreeEntry(m: Json)
    requires Entry(m).Some? && Entry(m).value.free && !EndsWith(Entry(m).value.id, ":free")
    ensures m.JObj? && "pricing" in m.fields && m.fields["pricing"].JObj?
    ensures PricedFree(m.fields["pricing"].fields)
  {
  }
}
