/** Repairing a conversation's tool-call groups before it goes to a model provider. */
module HistoryRepair {
  import opened Options
  import opened Sequences

  datatype Role = Assistant | Tool | Other

  /** An entry of `tool_calls`: an object with a usable id, or anything else. */
  datatype Call = Call(id: nat) | Unusable

  /**
   * Message content: plain, an empty object, or an object that wraps inner content, a list of calls
   * (empty when there is none) and whatever else was stored with them.
   */
  datatype Content = Plain(text: string) | Empty | Object(inner: Content, calls: seq<Call>, others: string)

  datatype Message = Message(role: Role, id: nat, content: Content, callId: Option<nat>)

  function CallsOf(m: Message): seq<Call> {
    if m.role.Assistant? && m.content.Object? then m.content.calls else []
  }

  function Inner(m: Message): Content {
    match m.content
    case Plain(_) => m.content
    case Empty => Plain("")
    case Object(inner, _, _) => inner
  }

  predicate Truthy(c: Content) { c.Object? || (c.Plain? && c.text != "") }

  function CallIds(calls: seq<Call>): set<nat> {
    if calls == [] then {} else (if calls[0].Call? then {calls[0].id} else {}) + CallIds(calls[1..])
  }

  /** How many tool messages stand at the head. */
  function RunLength(ms: seq<Message>): (n: nat)
    ensures n <= |ms|
  {
    if ms != [] && ms[0].role.Tool? then 1 + RunLength(ms[1..]) else 0
  }

  predicate Answers(m: Message, ids: set<nat>) { m.callId.Some? && m.callId.value in ids }

  function Answering(tools: seq<Message>, ids: set<nat>): seq<Message> {
    if tools == [] then [] else Answer(tools[0], ids) + Answering(tools[1..], ids)
  }

  function Answer(m: Message, ids: set<nat>): seq<Message> { if Answers(m, ids) then [m] else [] }

  function Answered(tools: seq<Message>): set<nat> {
    if tools == [] then {}
    else (if tools[0].callId.Some? then {tools[0].callId.value} else {}) + Answered(tools[1..])
  }

  function KeptCalls(calls: seq<Call>, ids: set<nat>): seq<Call> {
    if calls == [] then []
    else (if calls[0].Call? && calls[0].id in ids then [calls[0]] else []) + KeptCalls(calls[1..], ids)
  }

  function KeptTools(m: Message, run: seq<Message>): seq<Message> { Answering(run, CallIds(CallsOf(m))) }

  function KeptOf(m: Message, run: seq<Message>): seq<Call> { KeptCalls(CallsOf(m), Answered(KeptTools(m, run))) }

  function WithContent(m: Message, c: Content): Message { m.(content := c) }

  /** What is left of a call message none of whose calls was answered: its inner content, if any. */
  function Revealed(m: Message): seq<Message> {
    if Truthy(Inner(m)) then [WithContent(m, Inner(m))] else []
  }

  /** A call message with the tool messages that follow it at once. */
  function RepairGroup(m: Message, run: seq<Message>): seq<Message> {
    if KeptOf(m, run) != [] then [WithContent(m, Object(Inner(m), KeptOf(m, run), ""))] + KeptTools(m, run)
    else Revealed(m)
  }

  function Run(ms: seq<Message>): seq<Message> { ms[..RunLength(ms)] }
  function AfterRun(ms: seq<Message>): seq<Message> { ms[RunLength(ms)..] }

  function Repair(ms: seq<Message>): seq<Message>
    decreases |ms|
  {
    if ms == [] then []
    else if CallsOf(ms[0]) != [] then RepairGroup(ms[0], Run(ms[1..])) + Repair(AfterRun(ms[1..]))
    else if ms[0].role.Tool? then Repair(ms[1..])
    else [ms[0]] + Repair(ms[1..])
  }

  // ---------------------------------------------------------------------------------------------
  // The loop
  // ---------------------------------------------------------------------------------------------

  lemma {:induction false} AnsweringAppend(a: seq<Message>, b: seq<Message>, ids: set<nat>)
    ensures Answering(a + b, ids) == Answering(a, ids) + Answering(b, ids)
  {
    if a == [] {
      assert a + b == b;
    } else {
      assert (a + b)[1..] == a[1..] + b;
      AnsweringAppend(a[1..], b, ids);
      hide Answer;
      Associate(Answer(a[0], ids), Answering(a[1..], ids), Answering(b, ids));
    }
  }

  lemma {:induction false} AnsweringOne(m: Message, ids: set<nat>)
    ensures Answering([m], ids) == if Answers(m, ids) then [m] else []
  {
  }

  /** The inner loop: the tool messages right after position `i` that answer a call. */
  method Contiguous(messages: seq<Message>, i: nat, ids: set<nat>) returns (tools: seq<Message>, j: nat)
    requires i < |messages|
    ensures j == i + 1 + RunLength(messages[i + 1..])
    ensures tools == Answering(messages[i + 1..j], ids)
  {
    hide Answering, RunLength;
    tools, j := [], i + 1;
    NothingAnswers(ids);
    assert messages[i + 1..j] == [];
    while j < |messages| && messages[j].role.Tool?
      invariant i < j <= |messages|
      invariant tools == Answering(messages[i + 1..j], ids)
      invariant j + RunLength(messages[j..]) == i + 1 + RunLength(messages[i + 1..])
    {
      RunStep(messages, j);
      assert messages[i + 1..j + 1] == messages[i + 1..j] + [messages[j]];
      AnsweringAppend(messages[i + 1..j], [messages[j]], ids);
      AnsweringOne(messages[j], ids);
      if Answers(messages[j], ids) { tools := tools + [messages[j]]; }
      j := j + 1;
    }
    RunStops(messages, j);
  }

  lemma {:induction false} NothingAnswers(ids: set<nat>)
    ensures Answering([], ids) == []
  {
  }

  lemma {:induction false} RunStep(messages: seq<Message>, j: nat)
    requires j < |messages| && messages[j].role.Tool?
    ensures RunLength(messages[j..]) == 1 + RunLength(messages[j + 1..])
  {
  }

  lemma {:induction false} RunStops(messages: seq<Message>, j: nat)
    requires j <= |messages| && (j < |messages| ==> !messages[j].role.Tool?)
    ensures RunLength(messages[j..]) == 0
  {
  }

  /** A call message with its run: what it becomes, and where the run ends. */
  method SanitizeGroup(messages: seq<Message>, i: nat) returns (part: seq<Message>, j: nat)
    requires i < |messages|
    ensures part == RepairGroup(messages[i], Run(messages[i + 1..]))
    ensures i < j <= |messages| && messages[j..] == AfterRun(messages[i + 1..])
  {
    hide RunLength, Answering, CallIds, KeptCalls, Answered;
    var message := messages[i];
    var tools;
    tools, j := Contiguous(messages, i, CallIds(CallsOf(message)));
    assert messages[i + 1..j] == Run(messages[i + 1..]);
    var kept := KeptCalls(CallsOf(message), Answered(tools));
    part := [];
    if kept != [] {
      part := [WithContent(message, Object(Inner(message), kept, ""))] + tools;
    } else if Truthy(Inner(message)) {
      part := [WithContent(message, Inner(message))];
    }
  }

  method Sanitize(messages: seq<Message>) returns (result: seq<Message>)
    ensures result == Repair(messages)
  {
    hide RunLength, RepairGroup, Repair, CallsOf;
    result := [];
    var i := 0;
    assert messages[0..] == messages;
    while i < |messages|
      invariant i <= |messages|
      invariant result + Repair(messages[i..]) == Repair(messages)
      decreases |messages| - i
    {
      var message := messages[i];
      assert messages[i..][1..] == messages[i + 1..];
      RepairStep(messages[i..]);
      if CallsOf(message) != [] {
        var part, j := SanitizeGroup(messages, i);
        Associate(result, part, Repair(messages[j..]));
        result := result + part;
        i := j;
      } else if message.role.Tool? {
        i := i + 1;
      } else {
        Associate(result, [message], Repair(messages[i + 1..]));
        result := result + [message];
        i := i + 1;
      }
    }
    RepairStep(messages[i..]);
  }

  lemma {:induction false} RepairStep(ms: seq<Message>)
    ensures Repair(ms) == if ms == [] then []
                          else if CallsOf(ms[0]) != [] then RepairGroup(ms[0], Run(ms[1..])) + Repair(AfterRun(ms[1..]))
                          else if ms[0].role.Tool? then Repair(ms[1..])
                          else [ms[0]] + Repair(ms[1..])
  {
  }

  // ---------------------------------------------------------------------------------------------
  // What a provider accepts
  // ---------------------------------------------------------------------------------------------

  /** The tool messages answer exactly the calls. */
  ghost predicate Matched(m: Message, run: seq<Message>) {
    && (forall i :: 0 <= i < |CallsOf(m)| ==> CallsOf(m)[i].Call?)
    && (forall i :: 0 <= i < |run| ==> run[i].callId.Some?)
    && Answered(run) == CallIds(CallsOf(m))
  }

  /** Every call message is followed at once by exactly its answers, and no other tool message is left. */
  ghost predicate Valid(ms: seq<Message>)
    decreases |ms|
  {
    ms == []
    || if CallsOf(ms[0]) != [] then Matched(ms[0], Run(ms[1..])) && Valid(AfterRun(ms[1..]))
       else !ms[0].role.Tool? && Valid(ms[1..])
  }

  /** No call message that goes unanswered wraps another one. */
  ghost predicate NothingNested(ms: seq<Message>)
    decreases |ms|
  {
    ms == []
    || if CallsOf(ms[0]) != []
       then (KeptOf(ms[0], Run(ms[1..])) == [] ==> CallsOf(WithContent(ms[0], Inner(ms[0]))) == [])
            && NothingNested(AfterRun(ms[1..]))
       else NothingNested(ms[1..])
  }

  ghost predicate AllTools(ms: seq<Message>) { forall i :: 0 <= i < |ms| ==> ms[i].role.Tool? }

  ghost predicate NoToolFirst(ms: seq<Message>) { ms == [] || !ms[0].role.Tool? }

  lemma {:induction false} RunIsTools(ms: seq<Message>)
    ensures AllTools(Run(ms)) && NoToolFirst(AfterRun(ms)) && ms == Run(ms) + AfterRun(ms)
  {
    if ms != [] && ms[0].role.Tool? { RunIsTools(ms[1..]); }
  }

  lemma {:induction false} RunOf(tools: seq<Message>, rest: seq<Message>)
    requires AllTools(tools) && NoToolFirst(rest)
    ensures Run(tools + rest) == tools && AfterRun(tools + rest) == rest
  {
    if tools == [] {
      assert tools + rest == rest;
    } else {
      assert (tools + rest)[1..] == tools[1..] + rest;
      RunOf(tools[1..], rest);
    }
  }

  lemma {:induction false} AnsweringFacts(tools: seq<Message>, ids: set<nat>)
    ensures Answered(Answering(tools, ids)) == Answered(tools) * ids
    ensures AllTools(tools) ==> AllTools(Answering(tools, ids))
    ensures forall i :: 0 <= i < |Answering(tools, ids)| ==> Answering(tools, ids)[i].callId.Some?
  {
    if tools != [] {
      AnsweringFacts(tools[1..], ids);
      assert AllTools(tools) ==> AllTools(tools[1..]);
      var rest := Answering(tools[1..], ids);
      if Answers(tools[0], ids) {
        assert ([tools[0]] + rest)[1..] == rest;
      } else {
        assert [] + rest == rest;
      }
    }
  }

  lemma {:induction false} KeptFacts(calls: seq<Call>, ids: set<nat>)
    ensures CallIds(KeptCalls(calls, ids)) == CallIds(calls) * ids
    ensures forall i :: 0 <= i < |KeptCalls(calls, ids)| ==> KeptCalls(calls, ids)[i].Call?
  {
    if calls != [] {
      KeptFacts(calls[1..], ids);
      var rest := KeptCalls(calls[1..], ids);
      if calls[0].Call? && calls[0].id in ids {
        assert ([calls[0]] + rest)[1..] == rest;
      } else {
        assert [] + rest == rest;
      }
    }
  }

  lemma {:induction false} GroupMatches(m: Message, run: seq<Message>)
    requires m.role.Assistant? && AllTools(run)
    ensures AllTools(KeptTools(m, run))
    ensures Matched(WithContent(m, Object(Inner(m), KeptOf(m, run), "")), KeptTools(m, run))
  {
    hide Answering, Answered, KeptCalls, CallIds, AllTools;
    AnsweringFacts(run, CallIds(CallsOf(m)));
    KeptFacts(CallsOf(m), Answered(KeptTools(m, run)));
  }

  lemma {:induction false} RepairStarts(ms: seq<Message>)
    ensures NoToolFirst(Repair(ms))
    decreases |ms|
  {
    if ms != [] {
      hide KeptOf, KeptTools, RunLength;
      if CallsOf(ms[0]) != [] {
        RepairStarts(AfterRun(ms[1..]));
      } else {
        RepairStarts(ms[1..]);
      }
    }
  }

  /** A call message and its answers in front of a text that starts without one. */
  lemma {:induction false} ValidGroup(m: Message, tools: seq<Message>, rest: seq<Message>)
    requires CallsOf(m) != [] && AllTools(tools) && NoToolFirst(rest)
    ensures Valid([m] + tools + rest) <==> Matched(m, tools) && Valid(rest)
  {
    hide Matched;
    var ms := [m] + tools + rest;
    assert ms[1..] == tools + rest;
    RunOf(tools, rest);
  }

  lemma {:induction false} ValidOther(m: Message, rest: seq<Message>)
    requires CallsOf(m) == [] && !m.role.Tool?
    ensures Valid([m] + rest) <==> Valid(rest)
  {
  }

  lemma {:induction false} NeverMatched(m: Message)
    requires CallsOf(m) != []
    ensures !Matched(m, [])
  {
  }

  lemma {:induction false} GroupIsValid(m: Message, run: seq<Message>, rest: seq<Message>)
    requires CallsOf(m) != [] && AllTools(run) && NoToolFirst(rest)
    ensures Valid(RepairGroup(m, run) + rest)
            <==> (KeptOf(m, run) == [] ==> CallsOf(WithContent(m, Inner(m))) == []) && Valid(rest)
  {
    hide KeptOf, KeptTools, AllTools, Valid, Matched, NoToolFirst;
    if KeptOf(m, run) != [] {
      GroupMatches(m, run);
      ValidGroup(WithContent(m, Object(Inner(m), KeptOf(m, run), "")), KeptTools(m, run), rest);
    } else if !Truthy(Inner(m)) {
      assert Revealed(m) + rest == rest;
    } else {
      var shown := WithContent(m, Inner(m));
      if CallsOf(shown) == [] {
        ValidOther(shown, rest);
      } else {
        assert AllTools([]) by { NoTools(); }
        ValidGroup(shown, [], rest);
        assert [shown] + [] + rest == [shown] + rest;
        NeverMatched(shown);
      }
    }
  }

  lemma {:induction false} NoTools()
    ensures AllTools([])
  {
  }

  /** The repaired history is valid exactly when no unanswered call message wraps another. */
  lemma {:induction false} RepairIsValid(ms: seq<Message>)
    ensures Valid(Repair(ms)) <==> NothingNested(ms)
    decreases |ms|
  {
    if ms == [] {
      assert Valid([]);
    } else if CallsOf(ms[0]) != [] {
      var rest := AfterRun(ms[1..]);
      RunIsTools(ms[1..]);
      RepairIsValid(rest);
      RepairStarts(rest);
      hide KeptOf, AllTools, Valid, RunLength, RepairGroup;
      GroupIsValid(ms[0], Run(ms[1..]), Repair(rest));
    } else {
      RepairIsValid(ms[1..]);
      hide KeptOf, Valid, RunLength, RepairGroup;
      if !ms[0].role.Tool? { ValidOther(ms[0], Repair(ms[1..])); }
    }
  }

  // ---------------------------------------------------------------------------------------------
  // Fixed points
  // ---------------------------------------------------------------------------------------------

  /** No call message stores anything besides its content and its calls. */
  ghost predicate Bare(ms: seq<Message>) {
    forall i :: 0 <= i < |ms| && CallsOf(ms[i]) != [] ==> ms[i].content.others == ""
  }

  lemma {:induction false} AnsweringAll(tools: seq<Message>, ids: set<nat>)
    requires (forall i :: 0 <= i < |tools| ==> tools[i].callId.Some?) && Answered(tools) <= ids
    ensures Answering(tools, ids) == tools
  {
    if tools != [] {
      assert tools[0].callId.value in Answered(tools);
      AnsweringAll(tools[1..], ids);
    }
  }

  lemma {:induction false} KeptAll(calls: seq<Call>, ids: set<nat>)
    requires (forall i :: 0 <= i < |calls| ==> calls[i].Call?) && CallIds(calls) <= ids
    ensures KeptCalls(calls, ids) == calls
  {
    if calls != [] {
      assert calls[0].id in CallIds(calls);
      KeptAll(calls[1..], ids);
    }
  }

  lemma {:induction false} MatchedGroupStays(m: Message, run: seq<Message>)
    requires CallsOf(m) != [] && Matched(m, run)
    ensures KeptTools(m, run) == run && KeptOf(m, run) == CallsOf(m)
    ensures RepairGroup(m, run) == [m] + run <==> m.content.others == ""
  {
    hide Answered, CallIds, Answering, KeptCalls;
    AnsweringAll(run, CallIds(CallsOf(m)));
    KeptAll(CallsOf(m), Answered(run));
    if m.content.others == "" {
      assert WithContent(m, Object(Inner(m), CallsOf(m), "")) == m;
    } else {
      assert RepairGroup(m, run)[0] != m;
    }
  }

  lemma {:induction false} ValidStays(ms: seq<Message>)
    requires Valid(ms) && Bare(ms)
    ensures Repair(ms) == ms
    decreases |ms|
  {
    if ms != [] {
      if CallsOf(ms[0]) != [] {
        hide Matched, RunLength, RepairGroup, Bare;
        var run, rest := Run(ms[1..]), AfterRun(ms[1..]);
        RunIsTools(ms[1..]);
        Associate([ms[0]], run, rest);
        assert ms == [ms[0]] + ms[1..];
        BareParts(ms, [ms[0]] + run, rest);
        BareHead(ms[0], run);
        MatchedGroupStays(ms[0], run);
        ValidStays(rest);
      } else {
        assert ms == [ms[0]] + ms[1..];
        BareParts(ms, [ms[0]], ms[1..]);
        ValidStays(ms[1..]);
      }
    }
  }

  lemma {:induction false} BareHead(m: Message, tail: seq<Message>)
    requires Bare([m] + tail) && CallsOf(m) != []
    ensures m.content.others == ""
  {
    assert ([m] + tail)[0] == m;
  }

  lemma {:induction false} BareParts(ms: seq<Message>, a: seq<Message>, b: seq<Message>)
    requires ms == a + b
    ensures Bare(ms) <==> Bare(a) && Bare(b)
  {
    assert forall i :: 0 <= i < |a| ==> ms[i] == a[i];
    assert forall i :: 0 <= i < |b| ==> b[i] == ms[|a| + i];
  }

  lemma {:induction false} AnsweringShorter(tools: seq<Message>, ids: set<nat>)
    ensures |Answering(tools, ids)| <= |tools|
  {
    if tools != [] { AnsweringShorter(tools[1..], ids); }
  }

  lemma {:induction false} RepairShorter(ms: seq<Message>)
    ensures |Repair(ms)| <= |ms|
    decreases |ms|
  {
    if ms != [] {
      if CallsOf(ms[0]) != [] {
        AnsweringShorter(Run(ms[1..]), CallIds(CallsOf(ms[0])));
        RepairShorter(AfterRun(ms[1..]));
      } else {
        RepairShorter(ms[1..]);
      }
    }
  }

  /** A group that comes out as it went in was kept whole. */
  lemma {:induction false} StayedGroup(m: Message, run: seq<Message>, out: seq<Message>, rest: seq<Message>)
    requires CallsOf(m) != [] && AllTools(run) && NoToolFirst(out) && NoToolFirst(rest) && |out| <= |rest|
    requires RepairGroup(m, run) + out == [m] + run + rest
    ensures KeptTools(m, run) == run && out == rest
    ensures KeptOf(m, run) == CallsOf(m) && CallsOf(m) != [] && m.content.others == ""
  {
    hide KeptOf, Answering;
    AnsweringShorter(run, CallIds(CallsOf(m)));
    if KeptOf(m, run) == [] {
      if Truthy(Inner(m)) {
        assert (RepairGroup(m, run) + out)[0] == WithContent(m, Inner(m));
        InnerIsSmaller(m);
      }
      assert false;
    }
    var tools := KeptTools(m, run);
    assert (RepairGroup(m, run) + out)[0] == m;
    assert (RepairGroup(m, run) + out)[1..] == tools + out;
    assert ([m] + run + rest)[1..] == run + rest;
    GroupMatches(m, run);
    RunOf(tools, out);
    RunOf(run, rest);
  }

  lemma {:induction false} InnerIsSmaller(m: Message)
    requires CallsOf(m) != []
    ensures Inner(m) != m.content
  {
  }

  lemma {:induction false} StaysValid(ms: seq<Message>)
    requires Repair(ms) == ms
    ensures Valid(ms) && Bare(ms)
    decreases |ms|
  {
    hide Repair, RepairGroup, RunLength, AllTools, KeptOf, KeptTools, Matched, Bare;
    RepairStep(ms);
    if ms == [] {
      assert Bare([]) by { NothingIsBare(); }
    } else {
      if CallsOf(ms[0]) != [] {
        var m, run, rest := ms[0], Run(ms[1..]), AfterRun(ms[1..]);
        RunIsTools(ms[1..]);
        assert ms == [m] + ms[1..];
        Associate([m], run, rest);
        RepairStarts(rest);
        RepairShorter(rest);
        StayedGroup(m, run, Repair(rest), rest);
        StaysValid(rest);
        WholeGroupMatches(m, run);
        BareGroup(m, run, rest);
      } else if ms[0].role.Tool? {
        RepairShorter(ms[1..]);
        assert false;
      } else {
        assert Repair(ms[1..]) == ms[1..] by { assert ms[1..] == ([ms[0]] + Repair(ms[1..]))[1..]; }
        assert Bare([ms[0]]) by { OneIsBare(ms[0]); }
        StaysValid(ms[1..]);
        assert ms == [ms[0]] + ms[1..];
        BareParts(ms, [ms[0]], ms[1..]);
      }
    }
  }

  lemma {:induction false} NothingIsBare()
    ensures Bare([])
  {
  }

  lemma {:induction false} OneIsBare(m: Message)
    requires CallsOf(m) == []
    ensures Bare([m])
  {
  }

  lemma {:induction false} WholeGroupMatches(m: Message, run: seq<Message>)
    requires CallsOf(m) != [] && AllTools(run)
    requires KeptTools(m, run) == run && KeptOf(m, run) == CallsOf(m) && m.content.others == ""
    ensures Matched(m, run)
  {
    hide KeptTools, KeptOf, Matched;
    GroupMatches(m, run);
    assert WithContent(m, Object(Inner(m), CallsOf(m), "")) == m;
  }

  lemma {:induction false} BareGroup(m: Message, run: seq<Message>, rest: seq<Message>)
    requires CallsOf(m) != [] && m.content.others == "" && AllTools(run) && Bare(rest)
    ensures Bare([m] + run + rest)
  {
  }

  /** The repair leaves a history alone exactly when it is valid and stores nothing with its calls. */
  lemma {:induction false} RepairStays(ms: seq<Message>)
    ensures Repair(ms) == ms <==> Valid(ms) && Bare(ms)
  {
    if Repair(ms) == ms {
      StaysValid(ms);
    } else if Valid(ms) && Bare(ms) {
      ValidStays(ms);
      assert false;
    }
  }

  lemma {:induction false} BareRepairedGroup(m: Message, run: seq<Message>)
    requires AllTools(KeptTools(m, run))
    requires KeptOf(m, run) == [] ==> CallsOf(WithContent(m, Inner(m))) == []
    ensures Bare(RepairGroup(m, run))
  {
  }

  lemma {:induction false} RepairIsBare(ms: seq<Message>)
    requires NothingNested(ms)
    ensures Bare(Repair(ms))
    decreases |ms|
  {
    if ms != [] {
      if CallsOf(ms[0]) != [] {
        var m, run, rest := ms[0], Run(ms[1..]), AfterRun(ms[1..]);
        RepairIsBare(rest);
        RunIsTools(ms[1..]);
        GroupMatches(m, run);
        BareRepairedGroup(m, run);
        hide RunLength, RepairGroup;
        BareParts(RepairGroup(m, run) + Repair(rest), RepairGroup(m, run), Repair(rest));
      } else if ms[0].role.Tool? {
        RepairIsBare(ms[1..]);
      } else {
        RepairIsBare(ms[1..]);
        BareParts([ms[0]] + Repair(ms[1..]), [ms[0]], Repair(ms[1..]));
      }
    }
  }

  /** Repairing twice is repairing once exactly when no unanswered call message wraps another. */
  lemma {:induction false} RepairTwice(ms: seq<Message>)
    ensures Repair(Repair(ms)) == Repair(ms) <==> NothingNested(ms)
  {
    hide Repair, Valid, NothingNested, Bare;
    RepairStays(Repair(ms));
    RepairIsValid(ms);
    if NothingNested(ms) { RepairIsBare(ms); }
  }

  // ---------------------------------------------------------------------------------------------
  // What is kept, and in which order
  // ---------------------------------------------------------------------------------------------

  ghost predicate Subsequence<T>(a: seq<T>, b: seq<T>)
    decreases |b|
  {
    a == [] || (b != [] && ((a[0] == b[0] && Subsequence(a[1..], b[1..])) || Subsequence(a, b[1..])))
  }

  function Ids(ms: seq<Message>): (r: seq<nat>) {
    if ms == [] then [] else [ms[0].id] + Ids(ms[1..])
  }

  function Plains(ms: seq<Message>): seq<Message> {
    if ms == [] then []
    else (if CallsOf(ms[0]) == [] && !ms[0].role.Tool? then [ms[0]] else []) + Plains(ms[1..])
  }

  lemma {:induction false} EmptySubsequence<T>(b: seq<T>)
    ensures Subsequence([], b)
  {
  }

  lemma {:induction false} SubsequenceAppend<T>(a: seq<T>, b: seq<T>, c: seq<T>, d: seq<T>)
    requires Subsequence(a, b) && Subsequence(c, d)
    ensures Subsequence(a + c, b + d)
    decreases |b|
  {
    if b == [] {
      assert a + c == c && b + d == d;
    } else {
      assert (b + d)[1..] == b[1..] + d;
      if a != [] && a[0] == b[0] && Subsequence(a[1..], b[1..]) {
        assert (a + c)[1..] == a[1..] + c;
        SubsequenceAppend(a[1..], b[1..], c, d);
      } else {
        if a == [] { EmptySubsequence(b[1..]); }
        SubsequenceAppend(a, b[1..], c, d);
      }
    }
  }

  lemma {:induction false} IdsAppend(a: seq<Message>, b: seq<Message>)
    ensures Ids(a + b) == Ids(a) + Ids(b)
  {
    if a == [] {
      assert a + b == b;
    } else {
      assert (a + b)[1..] == a[1..] + b;
      IdsAppend(a[1..], b);
    }
  }

  lemma {:induction false} OneId(m: Message)
    ensures Ids([m]) == [m.id]
  {
  }

  lemma {:induction false} OneSubsequence<T>(x: T)
    ensures Subsequence([x], [x])
  {
  }

  lemma {:induction false} AnsweringIds(tools: seq<Message>, ids: set<nat>)
    ensures Subsequence(Ids(Answering(tools, ids)), Ids(tools))
  {
    if tools == [] {
      EmptySubsequence<nat>([]);
    } else {
      hide Subsequence;
      AnsweringIds(tools[1..], ids);
      var head := if Answers(tools[0], ids) then [tools[0]] else [];
      IdsAppend(head, Answering(tools[1..], ids));
      OneId(tools[0]);
      EmptySubsequence([tools[0].id]);
      OneSubsequence(tools[0].id);
      SubsequenceAppend(Ids(head), [tools[0].id], Ids(Answering(tools[1..], ids)), Ids(tools[1..]));
    }
  }

  lemma {:induction false} GroupIds(m: Message, run: seq<Message>)
    ensures Subsequence(Ids(RepairGroup(m, run)), [m.id] + Ids(run))
  {
    hide Subsequence, KeptOf, Answering;
    var tools := if KeptOf(m, run) != [] then KeptTools(m, run) else [];
    if tools == [] { EmptySubsequence(Ids(run)); }
    AnsweringIds(run, CallIds(CallsOf(m)));
    EmptySubsequence([m.id]);
    OneSubsequence(m.id);
    forall m': Message | m'.id == m.id ensures Ids([m']) == [m.id] { OneId(m'); }
    if KeptOf(m, run) != [] {
      var m' := WithContent(m, Object(Inner(m), KeptOf(m, run), ""));
      IdsAppend([m'], tools);
      SubsequenceAppend([m.id], [m.id], Ids(tools), Ids(run));
    } else {
      var head := Ids(Revealed(m));
      assert head + [] == head;
      SubsequenceAppend(head, [m.id], [], Ids(run));
    }
  }

  /** Nothing is invented, doubled or moved: the messages that come out are some of those that went in. */
  lemma {:induction false} RepairInvents(ms: seq<Message>)
    ensures Subsequence(Ids(Repair(ms)), Ids(ms))
    decreases |ms|
  {
    if ms == [] {
      EmptySubsequence<nat>([]);
    } else {
      hide Subsequence, RepairGroup, RunLength;
      if CallsOf(ms[0]) != [] {
        var m, run, rest := ms[0], Run(ms[1..]), AfterRun(ms[1..]);
        RunIsTools(ms[1..]);
        GroupIds(m, run);
        RepairInvents(rest);
        IdsAppend(RepairGroup(m, run), Repair(rest));
        IdsAppend(run, rest);
        SubsequenceAppend(Ids(RepairGroup(m, run)), [m.id] + Ids(run), Ids(Repair(rest)), Ids(rest));
        Associate([m.id], Ids(run), Ids(rest));
      } else {
        RepairInvents(ms[1..]);
        OneSubsequence(ms[0].id);
        EmptySubsequence([ms[0].id]);
        var out := Repair(ms[1..]);
        if ms[0].role.Tool? {
          assert [] + Ids(out) == Ids(out);
          SubsequenceAppend([], [ms[0].id], Ids(out), Ids(ms[1..]));
        } else {
          assert ([ms[0]] + out)[1..] == out;
          SubsequenceAppend([ms[0].id], [ms[0].id], Ids(out), Ids(ms[1..]));
        }
      }
    }
  }

  lemma {:induction false} ToolsAreNotPlain(tools: seq<Message>, rest: seq<Message>)
    requires AllTools(tools)
    ensures Plains(tools + rest) == Plains(rest)
  {
    if tools == [] {
      assert tools + rest == rest;
    } else {
      assert (tools + rest)[1..] == tools[1..] + rest;
      ToolsAreNotPlain(tools[1..], rest);
    }
  }

  /** Every message that is neither a tool result nor a call is kept as it is, in order. */
  lemma {:induction false} RepairKeepsPlains(ms: seq<Message>)
    ensures Subsequence(Plains(ms), Repair(ms))
    decreases |ms|
  {
    if ms == [] {
      EmptySubsequence<Message>([]);
    } else {
      hide Subsequence, RepairGroup, RunLength;
      if CallsOf(ms[0]) != [] {
        var m, run, rest := ms[0], Run(ms[1..]), AfterRun(ms[1..]);
        RunIsTools(ms[1..]);
        ToolsAreNotPlain(run, rest);
        RepairKeepsPlains(rest);
        EmptySubsequence(RepairGroup(m, run));
        assert [] + Plains(rest) == Plains(rest);
        SubsequenceAppend([], RepairGroup(m, run), Plains(rest), Repair(rest));
      } else {
        RepairKeepsPlains(ms[1..]);
        OneSubsequence(ms[0]);
        if ms[0].role.Tool? {
          assert [] + Plains(ms[1..]) == Plains(ms[1..]);
        } else {
          SubsequenceAppend([ms[0]], [ms[0]], Plains(ms[1..]), Repair(ms[1..]));
        }
      }
    }
  }

  /** Parts that do not start inside a group are repaired independently. */
  lemma {:induction false} RepairSplits(a: seq<Message>, b: seq<Message>)
    requires NoToolFirst(b)
    ensures Repair(a + b) == Repair(a) + Repair(b)
    decreases |a|
  {
    hide Repair, RepairGroup, RunLength;
    RepairStep(a);
    RepairStep(a + b);
    if a == [] {
      assert a + b == b;
    } else {
      assert (a + b)[1..] == a[1..] + b;
      if CallsOf(a[0]) != [] {
        var run, rest := Run(a[1..]), AfterRun(a[1..]);
        RunIsTools(a[1..]);
        Associate(run, rest, b);
        RunOf(run, rest + b);
        RepairSplits(rest, b);
        Associate(RepairGroup(a[0], run), Repair(rest), Repair(b));
      } else {
        RepairSplits(a[1..], b);
        Associate([a[0]], Repair(a[1..]), Repair(b));
      }
    }
  }

  lemma {:induction false} AnsweredHas(tools: seq<Message>, id: nat)
    ensures id in Answered(tools) <==> exists i :: 0 <= i < |tools| && tools[i].callId == Some(id)
  {
    if tools != [] {
      AnsweredHas(tools[1..], id);
      if id in Answered(tools[1..]) {
        var i :| 0 <= i < |tools| - 1 && tools[1..][i].callId == Some(id);
        assert tools[i + 1].callId == Some(id);
      }
      if i :| 0 < i < |tools| && tools[i].callId == Some(id) { assert tools[1..][i - 1].callId == Some(id); }
    }
  }

  lemma {:induction false} IdsHave(calls: seq<Call>, id: nat)
    ensures id in CallIds(calls) <==> Call(id) in calls
  {
    if calls != [] { IdsHave(calls[1..], id); }
  }

  lemma {:induction false} KeptHas(calls: seq<Call>, ids: set<nat>, c: Call)
    ensures c in KeptCalls(calls, ids) <==> c in calls && c.Call? && c.id in ids
  {
    if calls != [] { KeptHas(calls[1..], ids, c); }
  }

  lemma {:induction false} AnsweringHas(tools: seq<Message>, ids: set<nat>, t: Message)
    ensures t in Answering(tools, ids) <==> t in tools && Answers(t, ids)
  {
    if tools != [] { AnsweringHas(tools[1..], ids, t); }
  }

  /** A group keeps exactly the calls that a tool message of its run answers, and exactly the answers. */
  lemma {:induction false} GroupKeeps(m: Message, run: seq<Message>)
    ensures forall c :: c in KeptOf(m, run) <==>
              c in CallsOf(m) && c.Call? && exists i :: 0 <= i < |run| && run[i].callId == Some(c.id)
    ensures forall t :: t in KeptTools(m, run) <==>
              t in run && t.callId.Some? && Call(t.callId.value) in CallsOf(m)
  {
    hide KeptCalls, Answering, Answered, CallIds;
    var ids := CallIds(CallsOf(m));
    AnsweringFacts(run, ids);
    forall c
      ensures c in KeptOf(m, run) <==>
                c in CallsOf(m) && c.Call? && exists i :: 0 <= i < |run| && run[i].callId == Some(c.id)
    {
      KeptHas(CallsOf(m), Answered(KeptTools(m, run)), c);
      if c.Call? {
        IdsHave(CallsOf(m), c.id);
        AnsweredHas(run, c.id);
      }
    }
    forall t ensures t in KeptTools(m, run) <==> t in run && t.callId.Some? && Call(t.callId.value) in CallsOf(m) {
      AnsweringHas(run, ids, t);
      if t.callId.Some? { IdsHave(CallsOf(m), t.callId.value); }
    }
  }

  lemma {:induction false} NobodyAnswers(calls: seq<Call>)
    ensures KeptCalls(calls, {}) == []
  {
    if calls != [] { NobodyAnswers(calls[1..]); }
  }

  /** An unanswered call message that wraps another is unwrapped into a call without answers. */
  lemma {:induction false} NestedCallIsRevealed()
    ensures var m := Message(Assistant, 0, Object(Object(Plain(""), [Call(1)], ""), [Call(2)], ""), None);
            !Valid(Repair([m])) && Repair(Repair([m])) == []
  {
    var inner := Object(Plain(""), [Call(1)], "");
    var m := Message(Assistant, 0, Object(inner, [Call(2)], ""), None);
    var m' := WithContent(m, inner);
    assert [m][1..] == [] && [m'][1..] == [];
    assert Run([]) == [] && AfterRun([]) == [];
    NobodyAnswers(CallsOf(m));
    NobodyAnswers(CallsOf(m'));
    assert Repair([m]) == [m'];
    assert Repair([m']) == [];
    NeverMatched(m');
  }
}
