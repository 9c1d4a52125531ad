/** The tool side of one streamed response of `stream_with_tools`: starts,
    argument fragments and ends of any number of interleaved tool calls. */
module ToolStream {
  import opened Strings

  /** How the end of an active tool call turns out once its arguments look
      complete. Tools are arbitrary, so are the arguments they are found in. */
  datatype EndOutcome =
    | ParseError
    | SchemaError
    | EmptyArgs
    | MissingCommand
    | Ran(args: string, result: ToolOutput, deferred: seq<string>, gotFeedback: bool, stopAfter: bool)
    | StoppedBefore

  datatype Rejection = FeedbackSkip | IncompleteJson | BadJson | BadSchema | NoArgs | NoCommand

  datatype ToolOutput = TextOutput(text: string) | ImageOutput(texts: seq<string>)

  datatype RawResult = Output(output: ToolOutput) | Rejected(why: Rejection)

  /** A tool call the model wrote out as a fenced block; it is dispatched if a result came back. */
  datatype FakeCall = FakeCall(name: string, command: string, result: Option<string>)

  datatype Event =
    | ToolStart(index: int, id: string, name: string)
    | ToolInput(index: int, fragment: string)
    | ToolEnd(index: int, outcome: EndOutcome)
    | Text(fakes: seq<FakeCall>)
    | Quiet

  datatype Call = Call(id: string, name: string, args: string)
  datatype Active = Active(id: string, name: string, json: string, index: int)
  datatype ToolResult = ToolResult(id: string, name: string, result: RawResult)

  // ---- what the events so far mean ---------------------------------------

  predicate Starts(e: Event) {
    e.ToolStart? && e.id != "" && e.name != ""
  }

  function Signature(e: Event): string
    requires e.ToolStart?
  {
    e.name + "_" + e.id
  }

  /** No id, index or signature is used twice, and no id looks like a fake call's. */
  ghost predicate Distinct(es: seq<Event>) {
    && (forall i :: 0 <= i < |es| && Starts(es[i]) ==> !("fake_" <= es[i].id))
    && forall i, j :: 0 <= i < j < |es| && Starts(es[i]) && Starts(es[j]) ==>
      es[i].id != es[j].id && es[i].index != es[j].index && Signature(es[i]) != Signature(es[j])
  }

  /** The call that owns stream index `index`. */
  function Owner(es: seq<Event>, index: int): (r: Option<(string, string)>) {
    if es == [] then None
    else
      var last := es[|es| - 1];
      if Starts(last) && last.index == index then Some((last.id, last.name))
      else Owner(es[..|es| - 1], index)
  }

  /** The concatenation, in order, of the fragments sent to `index` since its call started. */
  function Fragments(es: seq<Event>, index: int): string {
    if es == [] then ""
    else
      var before, last := es[..|es| - 1], es[|es| - 1];
      if Starts(last) && last.index == index then ""
      else if last.ToolInput? && last.index == index && Owner(before, index).Some? then
        Fragments(before, index) + last.fragment
      else Fragments(before, index)
  }

  /** The call at `index` has ended. */
  predicate Ended(es: seq<Event>, index: int) {
    es != [] &&
    var before, last := es[..|es| - 1], es[|es| - 1];
    || (last.ToolEnd? && last.index == index && Owner(before, index).Some?)
    || (!(Starts(last) && last.index == index) && Ended(before, index))
  }

  predicate Incomplete(json: string) {
    var s := Strip(json);
    s != "" && !(s[0] == '{' && s[|s| - 1] == '}')
  }

  /** The user spoke during a tool execution. */
  predicate FeedbackGiven(es: seq<Event>)
    decreases |es|, 0
  {
    es != [] &&
    var before, last := es[..|es| - 1], es[|es| - 1];
    FeedbackGiven(before) || (FirstEnd(before, last) && Executes(before, last) && last.outcome.gotFeedback)
  }

  /** `e` ends a call that has started and not ended. */
  predicate FirstEnd(before: seq<Event>, e: Event) {
    e.ToolEnd? && Owner(before, e.index).Some? && !Ended(before, e.index)
  }

  /** An ended call is really executed. */
  predicate Executes(before: seq<Event>, e: Event)
    requires e.ToolEnd?
    decreases |before|, 1
  {
    !FeedbackGiven(before) && !Incomplete(Fragments(before, e.index)) && e.outcome.Ran?
  }

  function EndResult(json: string, skip: bool, o: EndOutcome): Option<RawResult> {
    if skip then Some(Rejected(FeedbackSkip))
    else if Incomplete(json) then Some(Rejected(IncompleteJson))
    else match o
      case ParseError => Some(Rejected(BadJson))
      case SchemaError => Some(Rejected(BadSchema))
      case EmptyArgs => Some(Rejected(NoArgs))
      case MissingCommand => Some(Rejected(NoCommand))
      case Ran(_, result, _, _, _) => Some(Output(result))
      case StoppedBefore => None
  }

  function FakeId(n: nat): string {
    "fake_" + Decimal(n)
  }

  function FakeResults(n: nat, fakes: seq<FakeCall>): seq<ToolResult>
    decreases |fakes|
  {
    if fakes == [] then []
    else if fakes[0].result.None? then FakeResults(n, fakes[1..])
    else
      [ToolResult(FakeId(n), fakes[0].name, Output(TextOutput(fakes[0].result.value)))] + FakeResults(n + 1, fakes[1..])
  }

  /** The results one more event adds: one for the first end of a call, one for
      each dispatched fake call, none for anything else. */
  function NewResults(before: seq<Event>, e: Event, have: nat): seq<ToolResult> {
    if FirstEnd(before, e) then
      var r := EndResult(Fragments(before, e.index), FeedbackGiven(before), e.outcome);
      if r.None? then [] else [ToolResult(Owner(before, e.index).value.0, Owner(before, e.index).value.1, r.value)]
    else if e.Text? then FakeResults(have, e.fakes)
    else []
  }

  function Results(es: seq<Event>): seq<ToolResult> {
    if es == [] then []
    else
      var before := es[..|es| - 1];
      Results(before) + NewResults(before, es[|es| - 1], |Results(before)|)
  }

  function Deferred(es: seq<Event>): seq<string> {
    if es == [] then []
    else
      var before, last := es[..|es| - 1], es[|es| - 1];
      Deferred(before) + if FirstEnd(before, last) && Executes(before, last) then last.outcome.deferred else []
  }

  /** The calls in order of completion, fake ones left aside. */
  function CompletedIds(es: seq<Event>): seq<string> {
    if es == [] then []
    else
      var before, last := es[..|es| - 1], es[|es| - 1];
      CompletedIds(before) + if FirstEnd(before, last) then [Owner(before, last.index).value.0] else []
  }

  function Ids(rs: seq<ToolResult>): seq<string> {
    if rs == [] then [] else Ids(rs[..|rs| - 1]) + [rs[|rs| - 1].id]
  }

  /** Without fake calls and stops, the result ids are exactly the completed
      ids, in completion order: one result for every first end of a call. */
  lemma {:induction false} ResultsAreCompletions(es: seq<Event>)
    requires forall e :: e in es ==> !(e.Text? && e.fakes != []) && !(e.ToolEnd? && e.outcome.StoppedBefore?)
    ensures Ids(Results(es)) == CompletedIds(es)
  {
    if es != [] {
      var before, last := es[..|es| - 1], es[|es| - 1];
      ResultsAreCompletions(before);
      assert last in es;
      var have := Results(before);
      NewResultOf(before, last, |have|);
      if FirstEnd(before, last) {
        IdsOneMore(have, NewResults(before, last, |have|)[0]);
      } else {
        Nil(have);
        Nil(CompletedIds(before));
      }
    }
  }

  lemma NewResultOf(before: seq<Event>, e: Event, have: nat)
    requires !(e.Text? && e.fakes != []) && !(e.ToolEnd? && e.outcome.StoppedBefore?)
    ensures var r := NewResults(before, e, have);
            if FirstEnd(before, e) then |r| == 1 && r == [r[0]] && r[0].id == Owner(before, e.index).value.0
            else r == []
  {
  }

  lemma IdsOneMore(rs: seq<ToolResult>, r: ToolResult)
    ensures Ids(rs + [r]) == Ids(rs) + [r.id]
  {
    assert (rs + [r])[..|rs|] == rs;
  }

  /** The arguments the call at `index` was executed with. */
  function RunArgs(es: seq<Event>, index: int): string {
    if es == [] then ""
    else
      var before, last := es[..|es| - 1], es[|es| - 1];
      if Starts(last) && last.index == index then ""
      else if last.ToolEnd? && last.index == index && FirstEnd(before, last) && Executes(before, last) then
        last.outcome.args
      else RunArgs(before, index)
  }

  // ---- lookups in the mutable tables --------------------------------------

  /** The first active call with this stream index. */
  function Lookup(active: seq<Active>, index: int): (k: Option<nat>)
    ensures k.Some? ==> k.value < |active| && active[k.value].index == index
  {
    if active == [] then None
    else if active[0].index == index then Some(0)
    else match Lookup(active[1..], index) case Some(k) => Some(k + 1) case None => None
  }

  function View(active: seq<Active>, index: int): Option<Active> {
    match Lookup(active, index) case Some(k) => Some(active[k]) case None => None
  }

  lemma {:induction false} ViewAppend(active: seq<Active>, a: Active, index: int)
    ensures View(active + [a], index) ==
            if View(active, index).Some? then View(active, index)
            else if a.index == index then Some(a) else None
  {
    if active != [] {
      assert (active + [a])[1..] == active[1..] + [a];
      ViewAppend(active[1..], a, index);
    }
  }

  lemma {:induction false} ViewUpdate(active: seq<Active>, at: int, json: string, index: int)
    requires Lookup(active, at).Some?
    ensures var k := Lookup(active, at).value;
            View(active[k := active[k].(json := json)], index) ==
            if index == at then Some(active[k].(json := json)) else View(active, index)
  {
    if active[0].index != at {
      ViewUpdate(active[1..], at, json, index);
      var k := Lookup(active, at).value;
      assert active[k := active[k].(json := json)][1..] == active[1..][k - 1 := active[k].(json := json)];
    }
  }

  function ArgsFor(calls: seq<Call>, id: string): Option<string> {
    if calls == [] then None
    else if calls[0].id == id then Some(calls[0].args)
    else ArgsFor(calls[1..], id)
  }

  /** The first call with this id gets its parsed arguments. */
  function SetArgs(calls: seq<Call>, id: string, args: string): seq<Call> {
    if calls == [] then []
    else if calls[0].id == id then [calls[0].(args := args)] + calls[1..]
    else [calls[0]] + SetArgs(calls[1..], id, args)
  }

  lemma {:induction false} ArgsForAppend(calls: seq<Call>, c: Call, id: string)
    ensures ArgsFor(calls + [c], id) ==
            if ArgsFor(calls, id).Some? then ArgsFor(calls, id)
            else if c.id == id then Some(c.args) else None
  {
    if calls != [] {
      assert (calls + [c])[1..] == calls[1..] + [c];
      ArgsForAppend(calls[1..], c, id);
    }
  }

  lemma {:induction false} ArgsForSet(calls: seq<Call>, at: string, args: string, id: string)
    ensures ArgsFor(SetArgs(calls, at, args), id) ==
            if id == at && ArgsFor(calls, at).Some? then Some(args) else ArgsFor(calls, id)
  {
    if calls != [] && calls[0].id != at {
      ArgsForSet(calls[1..], at, args, id);
    }
  }

  // ---- owners ---------------------------------------------------------------

  lemma {:induction false} OwnerStarted(es: seq<Event>, index: int) returns (k: nat)
    requires Owner(es, index).Some?
    ensures k < |es| && Starts(es[k]) && es[k].index == index && (es[k].id, es[k].name) == Owner(es, index).value
  {
    var last := es[|es| - 1];
    if Starts(last) && last.index == index {
      k := |es| - 1;
    } else {
      k := OwnerStarted(es[..|es| - 1], index);
    }
  }

  /** A fresh start meets neither an owner of its index nor a used id. */
  lemma FreshStart(es: seq<Event>, e: Event, index: int)
    requires Distinct(es + [e]) && Starts(e) && Owner(es, index).Some?
    ensures index != e.index && Owner(es, index).value.0 != e.id
  {
    var k := OwnerStarted(es, index);
    assert (es + [e])[k] == es[k] && (es + [e])[|es|] == e;
  }

  lemma OneIndexPerId(es: seq<Event>, i: int, j: int)
    requires Distinct(es) && Owner(es, i).Some? && Owner(es, j).Some?
    requires Owner(es, i).value.0 == Owner(es, j).value.0
    ensures i == j
  {
    var k := OwnerStarted(es, i);
    var l := OwnerStarted(es, j);
    assert k == l;
  }

  lemma DistinctPrefix(es: seq<Event>, e: Event)
    requires Distinct(es + [e])
    ensures Distinct(es)
  {
    assert forall i :: 0 <= i < |es| ==> (es + [e])[i] == es[i];
  }

  /** Active call, completion mark and arguments of one stream index. */
  ghost predicate IndexMatches(
    es: seq<Event>, active: seq<Active>, completed: set<string>, calls: seq<Call>, index: int) {
    match Owner(es, index)
    case None => View(active, index).None?
    case Some((id, name)) =>
      && View(active, index) == Some(Active(id, name, Fragments(es, index), index))
      && (id in completed <==> Ended(es, index))
      && ArgsFor(calls, id) == Some(RunArgs(es, index))
  }

  /** Only ids of started calls occur in the tables, fake calls aside. */
  ghost predicate OnlyOwned(es: seq<Event>, active: seq<Active>, completed: set<string>, calls: seq<Call>) {
    && (forall a :: a in active ==> Owner(es, a.index) == Some((a.id, a.name)))
    && (forall id :: id in completed ==> exists index :: OwnedBy(es, index, id))
    && (forall c :: c in calls ==> "fake_" <= c.id || exists index :: OwnedBy(es, index, c.id))
  }

  predicate OwnedBy(es: seq<Event>, index: int, id: string) {
    Owner(es, index).Some? && Owner(es, index).value.0 == id
  }

  lemma {:induction false} NoArgsFor(calls: seq<Call>, id: string)
    requires forall c :: c in calls ==> c.id != id
    ensures ArgsFor(calls, id).None?
  {
    if calls != [] {
      NoArgsFor(calls[1..], id);
    }
  }

  /** The id of a fresh start occurs in none of the tables. */
  lemma FreshId(es: seq<Event>, e: Event, active: seq<Active>, completed: set<string>, calls: seq<Call>)
    requires Distinct(es + [e]) && Starts(e) && OnlyOwned(es, active, completed, calls)
    ensures forall a :: a in active ==> a.id != e.id
    ensures e.id !in completed && ArgsFor(calls, e.id).None? && Owner(es, e.index).None?
  {
    assert (es + [e])[|es|] == e;
    forall index | Owner(es, index).Some?
      ensures index != e.index && !OwnedBy(es, index, e.id)
    {
      FreshStart(es, e, index);
    }
    NoArgsFor(calls, e.id);
  }

  lemma StartHere(es: seq<Event>, e: Event, active: seq<Active>, completed: set<string>, calls: seq<Call>)
    requires Distinct(es + [e]) && Starts(e) && OnlyOwned(es, active, completed, calls)
    requires IndexMatches(es, active, completed, calls, e.index)
    ensures IndexMatches(es + [e], active + [Active(e.id, e.name, "", e.index)], completed,
                         calls + [Call(e.id, e.name, "")], e.index)
  {
    FreshId(es, e, active, completed, calls);
    assert (es + [e])[..|es|] == es;
    ViewAppend(active, Active(e.id, e.name, "", e.index), e.index);
    ArgsForAppend(calls, Call(e.id, e.name, ""), e.id);
  }

  lemma StartMatches(
    es: seq<Event>, e: Event, active: seq<Active>, completed: set<string>, calls: seq<Call>, index: int)
    requires Distinct(es + [e]) && Starts(e) && OnlyOwned(es, active, completed, calls)
    requires IndexMatches(es, active, completed, calls, index)
    ensures IndexMatches(es + [e], active + [Active(e.id, e.name, "", e.index)], completed,
                         calls + [Call(e.id, e.name, "")], index)
  {
    if index == e.index {
      StartHere(es, e, active, completed, calls);
    } else {
      Untouched(es, e, index);
      ViewAppend(active, Active(e.id, e.name, "", e.index), index);
      if Owner(es, index).Some? {
        ArgsForAppend(calls, Call(e.id, e.name, ""), Owner(es, index).value.0);
      }
    }
  }

  lemma StartOwned(es: seq<Event>, e: Event, active: seq<Active>, completed: set<string>, calls: seq<Call>)
    requires Distinct(es + [e]) && Starts(e) && OnlyOwned(es, active, completed, calls)
    ensures OnlyOwned(es + [e], active + [Active(e.id, e.name, "", e.index)], completed,
                      calls + [Call(e.id, e.name, "")])
  {
    assert (es + [e])[..|es|] == es;
    FreshId(es, e, active, completed, calls);
    forall index, id | OwnedBy(es, index, id)
      ensures OwnedBy(es + [e], index, id)
    {
    }
    assert OwnedBy(es + [e], e.index, e.id);
  }

  /** All that one more event can leave as it is at a stream index. */
  lemma Untouched(es: seq<Event>, e: Event, index: int)
    requires Starts(e) || e.ToolInput? || e.ToolEnd? ==> e.index != index
    ensures Owner(es + [e], index) == Owner(es, index) && Fragments(es + [e], index) == Fragments(es, index)
    ensures Ended(es + [e], index) == Ended(es, index) && RunArgs(es + [e], index) == RunArgs(es, index)
  {
    assert (es + [e])[..|es|] == es;
  }

  lemma QuietKeeps(es: seq<Event>, e: Event, active: seq<Active>, completed: set<string>, calls: seq<Call>)
    requires !Starts(e) && !e.ToolInput? && !e.ToolEnd?
    requires forall index :: IndexMatches(es, active, completed, calls, index)
    ensures forall index :: IndexMatches(es + [e], active, completed, calls, index)
    ensures OnlyOwned(es, active, completed, calls) ==> OnlyOwned(es + [e], active, completed, calls)
    ensures FeedbackGiven(es + [e]) == FeedbackGiven(es) && Deferred(es + [e]) == Deferred(es)
  {
    assert (es + [e])[..|es|] == es;
    forall index
      ensures IndexMatches(es + [e], active, completed, calls, index)
      ensures Owner(es + [e], index) == Owner(es, index)
    {
      assert IndexMatches(es, active, completed, calls, index);
      Untouched(es, e, index);
    }
    forall index, id
      ensures OwnedBy(es + [e], index, id) <==> OwnedBy(es, index, id)
    {
      Untouched(es, e, index);
    }
  }

  lemma StartKeeps(es: seq<Event>, e: Event, active: seq<Active>, completed: set<string>, calls: seq<Call>)
    requires Distinct(es + [e]) && Starts(e) && OnlyOwned(es, active, completed, calls)
    requires forall index :: IndexMatches(es, active, completed, calls, index)
    ensures var active', calls' := active + [Active(e.id, e.name, "", e.index)], calls + [Call(e.id, e.name, "")];
            && OnlyOwned(es + [e], active', completed, calls')
            && forall index :: IndexMatches(es + [e], active', completed, calls', index)
    ensures FeedbackGiven(es + [e]) == FeedbackGiven(es) && Deferred(es + [e]) == Deferred(es)
    ensures Results(es + [e]) == Results(es)
  {
    assert (es + [e])[..|es|] == es;
    StartOwned(es, e, active, completed, calls);
    forall index
      ensures IndexMatches(es + [e], active + [Active(e.id, e.name, "", e.index)], completed,
                           calls + [Call(e.id, e.name, "")], index)
    {
      StartMatches(es, e, active, completed, calls, index);
    }
  }

  lemma SignaturesKept(es: seq<Event>, e: Event, signatures: set<string>)
    requires SignaturesSeen(es, signatures)
    ensures SignaturesSeen(es + [e], signatures)
    ensures Starts(e) ==> SignaturesSeen(es + [e], signatures + {Signature(e)})
  {
    forall s | s in signatures
      ensures exists k :: 0 <= k < |es + [e]| && Starts((es + [e])[k]) && Signature((es + [e])[k]) == s
    {
      var k :| 0 <= k < |es| && Starts(es[k]) && Signature(es[k]) == s;
      assert (es + [e])[k] == es[k];
    }
    assert (es + [e])[|es|] == e;
  }

  lemma SignatureIsFresh(es: seq<Event>, e: Event, signatures: set<string>)
    requires Distinct(es + [e]) && Starts(e) && SignaturesSeen(es, signatures)
    ensures Signature(e) !in signatures
  {
    forall k | 0 <= k < |es| && Starts(es[k])
      ensures Signature(es[k]) != Signature(e)
    {
      assert (es + [e])[k] == es[k] && (es + [e])[|es|] == e;
    }
  }

  ghost predicate SignaturesSeen(es: seq<Event>, signatures: set<string>) {
    forall s :: s in signatures ==> exists k :: 0 <= k < |es| && Starts(es[k]) && Signature(es[k]) == s
  }

  datatype Tables = Tables(
    calls: seq<Call>, active: seq<Active>, completed: set<string>, skipped: set<int>, signatures: set<string>,
    results: seq<ToolResult>, feedbackReceived: bool, deferred: seq<string>)

  /** On a well-formed stream the mutable tables say what the events mean. */
  ghost predicate Refines(es: seq<Event>, t: Tables) {
    && (forall index :: IndexMatches(es, t.active, t.completed, t.calls, index))
    && OnlyOwned(es, t.active, t.completed, t.calls)
    && SignaturesSeen(es, t.signatures)
    && t.skipped == {}
    && t.results == Results(es)
    && t.feedbackReceived == FeedbackGiven(es)
    && t.deferred == Deferred(es)
  }

  /** The tables after the first end of the active call `tool`. */
  function Completed(t: Tables, tool: Active, e: Event): Option<Tables>
    requires e.ToolEnd?
  {
    var r := EndResult(tool.json, t.feedbackReceived, e.outcome);
    if r.None? then None
    else
      var t' := t.(results := t.results + [ToolResult(tool.id, tool.name, r.value)],
                   completed := t.completed + {tool.id});
      if r.value.Rejected? then Some(t')
      else Some(t'.(calls := SetArgs(t.calls, tool.id, e.outcome.args),
                    deferred := t.deferred + e.outcome.deferred,
                    feedbackReceived := t.feedbackReceived || e.outcome.gotFeedback))
  }

  lemma CompletedGrows(t: Tables, tool: Active, e: Event)
    requires e.ToolEnd? && Completed(t, tool, e).Some?
    ensures |Completed(t, tool, e).value.results| == |t.results| + 1
  {
  }

  lemma CompletedRefines(es: seq<Event>, e: Event, t: Tables, tool: Active)
    requires Distinct(es + [e]) && e.ToolEnd? && Refines(es, t)
    requires View(t.active, e.index) == Some(tool) && tool.id !in t.completed
    ensures Completed(t, tool, e).Some? ==> Refines(es + [e], Completed(t, tool, e).value)
  {
    DistinctPrefix(es, e);
    SignaturesKept(es, e, t.signatures);
    assert IndexMatches(es, t.active, t.completed, t.calls, e.index);
    EndKeeps(es, e, t.active, t.completed, t.calls);
    EndHistory(es, e);
    AddsOutputIff(es, e);
    if Completed(t, tool, e).Some? {
      EndAdds(es, e);
    }
  }

  lemma LateEndRefines(es: seq<Event>, e: Event, t: Tables)
    requires Distinct(es + [e]) && e.ToolEnd? && Refines(es, t)
    requires View(t.active, e.index).Some? ==> View(t.active, e.index).value.id in t.completed
    ensures Refines(es + [e], t)
  {
    DistinctPrefix(es, e);
    SignaturesKept(es, e, t.signatures);
    assert IndexMatches(es, t.active, t.completed, t.calls, e.index);
    LateEndKeeps(es, e, t.active, t.completed, t.calls);
  }

  lemma StartRefines(es: seq<Event>, e: Event, t: Tables)
    requires Distinct(es + [e]) && e.ToolStart? && Refines(es, t)
    ensures Refines(es + [e],
      if !Starts(e) then t
      else t.(signatures := t.signatures + {Signature(e)},
              calls := t.calls + [Call(e.id, e.name, "")],
              active := Insert(t.active, Active(e.id, e.name, "", e.index))))
    ensures Starts(e) ==> Signature(e) !in t.signatures
  {
    DistinctPrefix(es, e);
    SignaturesKept(es, e, t.signatures);
    if Starts(e) {
      SignatureIsFresh(es, e, t.signatures);
      FreshId(es, e, t.active, t.completed, t.calls);
      StartKeeps(es, e, t.active, t.completed, t.calls);
    } else {
      QuietKeeps(es, e, t.active, t.completed, t.calls);
      QuietResults(es, e);
    }
  }

  lemma InputRefines(es: seq<Event>, e: Event, t: Tables)
    requires Distinct(es + [e]) && e.ToolInput? && Refines(es, t)
    ensures Refines(es + [e], t.(active := AddFragment(t.active, e.index, e.fragment)))
  {
    DistinctPrefix(es, e);
    SignaturesKept(es, e, t.signatures);
    InputKeeps(es, e, t.active, t.completed, t.calls);
    QuietResults(es, e);
  }

  lemma TextRefines(es: seq<Event>, e: Event, t: Tables)
    requires Distinct(es + [e]) && (e.Text? || e.Quiet?) && Refines(es, t)
    ensures Refines(es + [e], if e.Quiet? then t else
      t.(calls := t.calls + FakeCalls(|t.results|, e.fakes), results := t.results + FakeResults(|t.results|, e.fakes)))
  {
    DistinctPrefix(es, e);
    SignaturesKept(es, e, t.signatures);
    if e.Quiet? {
      QuietKeeps(es, e, t.active, t.completed, t.calls);
      QuietResults(es, e);
    } else {
      assert (es + [e])[..|es|] == es;
      FakesKeep(es, e, t.active, t.completed, t.calls, |t.results|);
    }
  }

  // ---- the response being read ----------------------------------------------

  /** The tables with the caller's counters of empty calls. */
  datatype Memory = Memory(tables: Tables, executed: bool, emptyHere: nat, emptyInARow: nat)

  /** What one event does, and whether reading goes on. */
  function Next(m: Memory, e: Event): (Memory, bool) {
    var t := m.tables;
    match e
    case ToolStart(index, id, name) =>
      if !Starts(e) then (m, true)
      else if Signature(e) in t.signatures then (m.(tables := t.(skipped := t.skipped + {index})), true)
      else
        (m.(tables := t.(signatures := t.signatures + {Signature(e)},
                         calls := t.calls + [Call(id, name, "")],
                         active := Insert(t.active, Active(id, name, "", index)))), true)
    case ToolInput(index, fragment) =>
      (if index in t.skipped then m else m.(tables := t.(active := AddFragment(t.active, index, fragment))), true)
    case ToolEnd(index, _) =>
      var tool := View(t.active, index);
      if tool.Some? && tool.value.id !in t.completed then Ending(m, tool.value, e) else (m, true)
    case Text(fakes) =>
      (m.(tables := t.(calls := t.calls + FakeCalls(|t.results|, fakes),
                       results := t.results + FakeResults(|t.results|, fakes)),
          executed := m.executed || FakeResults(|t.results|, fakes) != []), true)
    case Quiet => (m, true)
  }

  function Nothing(emptyBefore: nat): Memory {
    Memory(Tables([], [], {}, {}, {}, [], false, []), false, 0, emptyBefore)
  }

  /** The first end of an active call. */
  function Ending(m: Memory, tool: Active, e: Event): (Memory, bool)
    requires e.ToolEnd?
  {
    match Completed(m.tables, tool, e)
    case None => (m, false)
    case Some(t) =>
      var m' := m.(tables := t, executed := true);
      match EndResult(tool.json, m.tables.feedbackReceived, e.outcome).value
      case Rejected(why) =>
        (m'.(emptyInARow := m.emptyInARow + if why == FeedbackSkip then 0 else 1,
             emptyHere := m.emptyHere + if why == FeedbackSkip || why == NoArgs then 0 else 1), true)
      case Output(_) => (m', !e.outcome.stopAfter)
  }

  class Response {
    var calls: seq<Call>
    var active: seq<Active>
    var completed: set<string>
    var skipped: set<int>
    var signatures: set<string>
    var results: seq<ToolResult>
    var executed: bool
    var feedbackReceived: bool
    var deferred: seq<string>
    var emptyHere: nat
    var emptyInARow: nat
    ghost var seen: seq<Event>

    function State(): Tables
      reads this
    {
      Tables(calls, active, completed, skipped, signatures, results, feedbackReceived, deferred)
    }

    function Now(): Memory
      reads this
    {
      Memory(State(), executed, emptyHere, emptyInARow)
    }

    ghost predicate Valid()
      reads this
    {
      && (results == [] <==> !executed) && (deferred != [] ==> executed)
      && (Distinct(seen) ==> Refines(seen, State()))
    }

    constructor (emptyBefore: nat)
      ensures Valid() && seen == [] && Now() == Nothing(emptyBefore)
    {
      calls, active, completed, skipped, signatures := [], [], {}, {}, {};
      results, executed, feedbackReceived, deferred := [], false, false, [];
      emptyHere, emptyInARow := 0, emptyBefore;
      seen := [];
    }

    /** `content_block_start`: a call is collected unless its signature was seen. */
    method Start(e: Event)
      requires Valid() && e.ToolStart?
      modifies this
      ensures Valid() && seen == old(seen) + [e] && Now() == Next(old(Now()), e).0
    {
      ghost var es := seen;
      seen := seen + [e];
      if Distinct(seen) {
        DistinctPrefix(es, e);
        StartRefines(es, e, State());
      }
      if e.id != "" && e.name != "" {
        if Signature(e) in signatures {
          skipped := skipped + {e.index};
        } else {
          signatures := signatures + {Signature(e)};
          calls := calls + [Call(e.id, e.name, "")];
          active := Insert(active, Active(e.id, e.name, "", e.index));
        }
      }
    }

    /** `input_json_delta`. */
    method Input(e: Event)
      requires Valid() && e.ToolInput?
      modifies this
      ensures Valid() && seen == old(seen) + [e] && Now() == Next(old(Now()), e).0
    {
      ghost var es := seen;
      seen := seen + [e];
      if Distinct(seen) {
        DistinctPrefix(es, e);
        InputRefines(es, e, State());
      }
      if e.index !in skipped {
        active := AddFragment(active, e.index, e.fragment);
      }
    }

    /** Dispatched fake calls are appended to calls and results together. */
    method Dispatch(fakes: seq<FakeCall>)
      modifies this`calls, this`results, this`executed
      ensures calls == old(calls) + FakeCalls(|old(results)|, fakes)
      ensures results == old(results) + FakeResults(|old(results)|, fakes)
      ensures executed <==> old(executed) || FakeResults(|old(results)|, fakes) != []
    {
      ghost var n := |results|;
      for i := 0 to |fakes|
        invariant old(calls) + FakeCalls(n, fakes) == calls + FakeCalls(|results|, fakes[i..])
        invariant old(results) + FakeResults(n, fakes) == results + FakeResults(|results|, fakes[i..])
        invariant executed <==> old(executed) || |results| > n
        invariant |results| >= n
      {
        var fake := fakes[i];
        assert fakes[i..][1..] == fakes[i + 1..];
        if fake.result.Some? {
          var id := FakeId(|results|);
          Assoc(calls, [Call(id, fake.name, fake.command)], FakeCalls(|results| + 1, fakes[i + 1..]));
          Assoc(results, [ToolResult(id, fake.name, Output(TextOutput(fake.result.value)))],
                FakeResults(|results| + 1, fakes[i + 1..]));
          calls := calls + [Call(id, fake.name, fake.command)];
          results := results + [ToolResult(id, fake.name, Output(TextOutput(fake.result.value)))];
          executed := true;
        }
      }
      assert fakes[|fakes|..] == [];
    }

    method ShowText(e: Event)
      requires Valid() && e.Text?
      modifies this
      ensures Valid() && seen == old(seen) + [e] && Now() == Next(old(Now()), e).0
    {
      ghost var es := seen;
      seen := seen + [e];
      if Distinct(seen) {
        DistinctPrefix(es, e);
        TextRefines(es, e, State());
      }
      Dispatch(e.fakes);
    }

    /** Usage records, heartbeats and unknown events. */
    method Skip(e: Event)
      requires Valid() && e.Quiet?
      modifies this`seen
      ensures Valid() && seen == old(seen) + [e] && Now() == Next(old(Now()), e).0
    {
      ghost var es := seen;
      seen := seen + [e];
      if Distinct(seen) {
        DistinctPrefix(es, e);
        TextRefines(es, e, State());
      }
    }

    /** `content_block_stop`: a first end of an active call leaves exactly one
        result, whatever becomes of the call; `go` is false when the run stops. */
    method End(e: Event) returns (go: bool)
      requires Valid() && e.ToolEnd?
      modifies this
      ensures (Now(), go) == Next(old(Now()), e)
      ensures go ==> Valid() && seen == old(seen) + [e]
    {
      var k := Lookup(active, e.index);
      if k.Some? && active[k.value].id !in completed {
        go := Complete(active[k.value], e);
        return;
      }
      ghost var es := seen;
      seen := seen + [e];
      if Distinct(seen) {
        DistinctPrefix(es, e);
        LateEndRefines(es, e, State());
      }
      go := true;
    }

    method Handle(e: Event) returns (go: bool)
      requires Valid()
      modifies this
      ensures (Now(), go) == Next(old(Now()), e)
      ensures go ==> Valid() && seen == old(seen) + [e]
    {
      go := true;
      match e
      case ToolStart(_, _, _) => Start(e);
      case ToolInput(_, _) => Input(e);
      case ToolEnd(_, _) => go := End(e);
      case Text(_) => ShowText(e);
      case Quiet => Skip(e);
    }

    method Enter(tool: Active, result: RawResult)
      modifies this`results, this`executed, this`completed
      ensures results == old(results) + [ToolResult(tool.id, tool.name, result)]
      ensures executed && completed == old(completed) + {tool.id}
    {
      results := results + [ToolResult(tool.id, tool.name, result)];
      executed := true;
      completed := completed + {tool.id};
    }

    /** Each way a call can end, from the feedback skip to the executed tool. */
    method Record(tool: Active, e: Event) returns (go: bool)
      requires e.ToolEnd?
      modifies this
      ensures seen == old(seen) && (Now(), go) == Ending(old(Now()), tool, e)
    {
      var result := EndResult(tool.json, feedbackReceived, e.outcome);
      if result.None? {
        return false;
      }
      Enter(tool, result.value);
      match result.value
      case Rejected(why) =>
        emptyInARow := emptyInARow + if why == FeedbackSkip then 0 else 1;
        emptyHere := emptyHere + if why == FeedbackSkip || why == NoArgs then 0 else 1;
        go := true;
      case Output(_) =>
        calls := SetArgs(calls, tool.id, e.outcome.args);
        deferred := deferred + e.outcome.deferred;
        feedbackReceived := feedbackReceived || e.outcome.gotFeedback;
        go := !e.outcome.stopAfter;
    }

    method Complete(tool: Active, e: Event) returns (go: bool)
      requires Valid() && e.ToolEnd? && View(active, e.index) == Some(tool) && tool.id !in completed
      modifies this
      ensures (Now(), go) == Ending(old(Now()), tool, e)
      ensures go ==> Valid() && seen == old(seen) + [e] && |results| == |old(results)| + 1
    {
      ghost var t := State();
      if Distinct(seen + [e]) {
        DistinctPrefix(seen, e);
        CompletedRefines(seen, e, t, tool);
      }
      go := Record(tool, e);
      if go {
        CompletedGrows(t, tool, e);
      }
      seen := seen + [e];
    }
  }

  lemma InputKeeps(es: seq<Event>, e: Event, active: seq<Active>, completed: set<string>, calls: seq<Call>)
    requires e.ToolInput? && OnlyOwned(es, active, completed, calls)
    requires forall index :: IndexMatches(es, active, completed, calls, index)
    ensures var active' := AddFragment(active, e.index, e.fragment);
            && OnlyOwned(es + [e], active', completed, calls)
            && forall index :: IndexMatches(es + [e], active', completed, calls, index)
    ensures FeedbackGiven(es + [e]) == FeedbackGiven(es) && Deferred(es + [e]) == Deferred(es)
  {
    assert (es + [e])[..|es|] == es;
    var active' := AddFragment(active, e.index, e.fragment);
    forall index
      ensures IndexMatches(es + [e], active', completed, calls, index)
      ensures Owner(es + [e], index) == Owner(es, index)
    {
      assert IndexMatches(es, active, completed, calls, index);
      if Lookup(active, e.index).Some? {
        ViewUpdate(active, e.index, View(active, e.index).value.json + e.fragment, index);
      }
      if index != e.index {
        Untouched(es, e, index);
      }
    }
    forall index, id
      ensures OwnedBy(es + [e], index, id) <==> OwnedBy(es, index, id)
    {
    }
    forall a | a in active'
      ensures Owner(es + [e], a.index) == Some((a.id, a.name))
    {
      var k :| 0 <= k < |active| && active[k].id == a.id && active[k].name == a.name && active[k].index == a.index;
      assert active[k] in active;
    }
  }

  /** `active_tools[id]['partial_json'] += fragment` for the first call at `index`, if any. */
  function AddFragment(active: seq<Active>, index: int, fragment: string): seq<Active> {
    match Lookup(active, index)
    case Some(k) => active[k := active[k].(json := active[k].json + fragment)]
    case None => active
  }

  /** A first end marks the call at its index, and possibly sets its arguments. */
  lemma EndKeeps(es: seq<Event>, e: Event, active: seq<Active>, completed: set<string>, calls: seq<Call>)
    requires Distinct(es) && e.ToolEnd? && FirstEnd(es, e) && OnlyOwned(es, active, completed, calls)
    requires forall index :: IndexMatches(es, active, completed, calls, index)
    ensures var id := Owner(es, e.index).value.0;
            var calls' := if Executes(es, e) then SetArgs(calls, id, e.outcome.args) else calls;
            && OnlyOwned(es + [e], active, completed + {id}, calls')
            && forall index :: IndexMatches(es + [e], active, completed + {id}, calls', index)
  {
    assert (es + [e])[..|es|] == es;
    var id := Owner(es, e.index).value.0;
    var calls' := if Executes(es, e) then SetArgs(calls, id, e.outcome.args) else calls;
    forall index
      ensures IndexMatches(es + [e], active, completed + {id}, calls', index)
      ensures Owner(es + [e], index) == Owner(es, index)
    {
      assert IndexMatches(es, active, completed, calls, index) && IndexMatches(es, active, completed, calls, e.index);
      if index != e.index {
        Untouched(es, e, index);
      }
      if Owner(es, index).Some? {
        if Owner(es, index).value.0 == id {
          OneIndexPerId(es, index, e.index);
        }
        if Executes(es, e) {
          ArgsForSet(calls, id, e.outcome.args, Owner(es, index).value.0);
        }
      }
    }
    forall index, x
      ensures OwnedBy(es + [e], index, x) <==> OwnedBy(es, index, x)
    {
    }
    assert OwnedBy(es + [e], e.index, id);
    SetArgsIds(calls, id, if Executes(es, e) then e.outcome.args else "");
  }

  lemma EndHistory(es: seq<Event>, e: Event)
    requires FirstEnd(es, e)
    ensures FeedbackGiven(es + [e]) == (FeedbackGiven(es) || (Executes(es, e) && e.outcome.gotFeedback))
    ensures Deferred(es + [e]) == Deferred(es) + if Executes(es, e) then e.outcome.deferred else []
  {
    assert (es + [e])[..|es|] == es && (es + [e])[|es|] == e;
  }

  /** What the first end of a call adds to the results. */
  function Added(es: seq<Event>, e: Event): Option<RawResult>
    requires e.ToolEnd?
  {
    EndResult(Fragments(es, e.index), FeedbackGiven(es), e.outcome)
  }

  lemma EndAdds(es: seq<Event>, e: Event)
    requires FirstEnd(es, e) && Added(es, e).Some?
    ensures var (id, name) := Owner(es, e.index).value;
            Results(es + [e]) == Results(es) + [ToolResult(id, name, Added(es, e).value)]
  {
    assert (es + [e])[..|es|] == es && (es + [e])[|es|] == e;
  }

  lemma AddsOutputIff(es: seq<Event>, e: Event)
    requires e.ToolEnd?
    ensures Added(es, e).Some? && Added(es, e).value.Output? <==> Executes(es, e)
  {
  }

  lemma {:induction false} SetArgsIds(calls: seq<Call>, at: string, args: string)
    ensures forall c :: c in SetArgs(calls, at, args) ==> exists d :: d in calls && d.id == c.id
  {
    if calls != [] {
      SetArgsIds(calls[1..], at, args);
    }
  }

  /** An end without an owner, or of a call that ended before, is ignored. */
  lemma LateEndKeeps(es: seq<Event>, e: Event, active: seq<Active>, completed: set<string>, calls: seq<Call>)
    requires e.ToolEnd? && !FirstEnd(es, e) && OnlyOwned(es, active, completed, calls)
    requires forall index :: IndexMatches(es, active, completed, calls, index)
    ensures OnlyOwned(es + [e], active, completed, calls)
    ensures forall index :: IndexMatches(es + [e], active, completed, calls, index)
    ensures FeedbackGiven(es + [e]) == FeedbackGiven(es) && Deferred(es + [e]) == Deferred(es)
    ensures Results(es + [e]) == Results(es)
  {
    assert (es + [e])[..|es|] == es;
    forall index
      ensures IndexMatches(es + [e], active, completed, calls, index)
      ensures Owner(es + [e], index) == Owner(es, index)
    {
      assert IndexMatches(es, active, completed, calls, index);
      if index != e.index {
        Untouched(es, e, index);
      }
    }
    forall index, x
      ensures OwnedBy(es + [e], index, x) <==> OwnedBy(es, index, x)
    {
    }
  }

  /** A dispatched fake call enters the calls and the results together. */
  lemma FakesKeep(es: seq<Event>, e: Event, active: seq<Active>, completed: set<string>, calls: seq<Call>, n: nat)
    requires e.Text? && Distinct(es) && OnlyOwned(es, active, completed, calls)
    requires forall index :: IndexMatches(es, active, completed, calls, index)
    ensures OnlyOwned(es + [e], active, completed, calls + FakeCalls(n, e.fakes))
    ensures forall index :: IndexMatches(es + [e], active, completed, calls + FakeCalls(n, e.fakes), index)
    ensures FeedbackGiven(es + [e]) == FeedbackGiven(es) && Deferred(es + [e]) == Deferred(es)
  {
    QuietKeeps(es, e, active, completed, calls);
    FakeIdsOnly(n, e.fakes);
    forall index
      ensures IndexMatches(es + [e], active, completed, calls + FakeCalls(n, e.fakes), index)
    {
      assert IndexMatches(es + [e], active, completed, calls, index);
      if Owner(es + [e], index).Some? {
        ArgsForMore(calls, FakeCalls(n, e.fakes), Owner(es + [e], index).value.0);
      }
    }
  }

  function FakeCalls(n: nat, fakes: seq<FakeCall>): seq<Call>
    decreases |fakes|
  {
    if fakes == [] then []
    else if fakes[0].result.None? then FakeCalls(n, fakes[1..])
    else [Call(FakeId(n), fakes[0].name, fakes[0].command)] + FakeCalls(n + 1, fakes[1..])
  }

  lemma {:induction false} FakeIdsOnly(n: nat, fakes: seq<FakeCall>)
    ensures forall c :: c in FakeCalls(n, fakes) ==> "fake_" <= c.id
    ensures |FakeResults(n, fakes)| == |FakeCalls(n, fakes)|
    decreases |fakes|
  {
    if fakes != [] {
      FakeIdsOnly(n, fakes[1..]);
      FakeIdsOnly(n + 1, fakes[1..]);
    }
  }

  lemma {:induction false} ArgsForMore(calls: seq<Call>, more: seq<Call>, id: string)
    requires ArgsFor(calls, id).Some?
    ensures ArgsFor(calls + more, id) == ArgsFor(calls, id)
  {
    if calls[0].id != id {
      assert (calls + more)[1..] == calls[1..] + more;
      ArgsForMore(calls[1..], more, id);
    }
  }

  lemma QuietResults(es: seq<Event>, e: Event)
    requires !e.ToolEnd? && !(e.Text? && e.fakes != [])
    ensures Results(es + [e]) == Results(es)
  {
    assert (es + [e])[..|es|] == es;
  }

  /** Python's `active_tools[a.id] = a`: in place if the key exists, else at the end. */
  function Insert(active: seq<Active>, a: Active): (r: seq<Active>)
    ensures (forall b :: b in active ==> b.id != a.id) ==> r == active + [a]
  {
    if active == [] then [a]
    else if active[0].id == a.id then [a] + active[1..]
    else [active[0]] + Insert(active[1..], a)
  }

  // ---- a whole response ----------------------------------------------------

  /** What the provider stream yields: tool and text events, and the things
      that end the reading of a response. */
  datatype Item =
    | Tool(e: Event)
    | UserStops
    | Raises
    | FatalError
    | Hallucinates
    | StreamEnds

  /** The events read before the first item that ends the reading. */
  function Consumed(items: seq<Item>): seq<Event> {
    if items == [] || !items[0].Tool? then [] else [items[0].e] + Consumed(items[1..])
  }

  /** Reading on from `m`: what ends it (`StreamEnds` when the stream just runs
      dry, `UserStops` if a tool execution stopped the run), and the memory then. */
  function ReadAll(m: Memory, items: seq<Item>): (Item, Memory)
    decreases |items|
  {
    if items == [] then (StreamEnds, m)
    else if !items[0].Tool? then (items[0], m)
    else
      var (m', go) := Next(m, items[0].e);
      if go then ReadAll(m', items[1..]) else (UserStops, m')
  }

  /** The reading loop. On a well-formed stream that no user stopped, the tables
      say what the events mean. */
  method Read(items: seq<Item>, emptyBefore: nat) returns (last: Item, m: Memory)
    ensures (last, m) == ReadAll(Nothing(emptyBefore), items)
    ensures !last.Tool?
    ensures !last.UserStops? ==>
              (m.tables.results == [] <==> !m.executed) && (m.tables.deferred != [] ==> m.executed)
    ensures !last.UserStops? && Distinct(Consumed(items)) ==> Refines(Consumed(items), m.tables)
  {
    var r := new Response(emptyBefore);
    var i := 0;
    while i < |items| && items[i].Tool?
      invariant fresh(r) && i <= |items| && r.Valid()
      invariant Consumed(items) == r.seen + Consumed(items[i..])
      invariant ReadAll(Nothing(emptyBefore), items) == ReadAll(r.Now(), items[i..])
    {
      ConsumedStep(r.seen, items, i);
      ReadStep(r.Now(), items, i);
      var go := r.Handle(items[i].e);
      if !go {
        return UserStops, r.Now();
      }
      i := i + 1;
    }
    ConsumedAll(r.seen, items, i);
    last := if i < |items| then items[i] else StreamEnds;
    m := r.Now();
  }

  lemma ReadStep(m: Memory, items: seq<Item>, i: nat)
    requires i < |items| && items[i].Tool?
    ensures var (m', go) := Next(m, items[i].e);
            ReadAll(m, items[i..]) == if go then ReadAll(m', items[i + 1..]) else (UserStops, m')
  {
    assert items[i..][1..] == items[i + 1..];
  }

  lemma ConsumedStep(before: seq<Event>, items: seq<Item>, i: nat)
    requires i < |items| && items[i].Tool?
    ensures before + Consumed(items[i..]) == before + [items[i].e] + Consumed(items[i + 1..])
  {
    assert items[i..][1..] == items[i + 1..];
    Assoc(before, [items[i].e], Consumed(items[i + 1..]));
  }

  lemma ConsumedAll(before: seq<Event>, items: seq<Item>, i: nat)
    requires i <= |items| && (i < |items| ==> !items[i].Tool?)
    ensures before + Consumed(items[i..]) == before
  {
  }

  /** Results are there exactly if a tool ran, and feedback is deferred only then. */
  predicate BooksKept(m: Memory) {
    (m.tables.results == [] <==> !m.executed) && (m.tables.deferred != [] ==> m.executed)
  }

  lemma NextKeepsBooks(m: Memory, e: Event)
    requires BooksKept(m)
    ensures BooksKept(Next(m, e).0)
  {
  }

  lemma {:induction false} ReadKeepsBooks(m: Memory, items: seq<Item>)
    requires BooksKept(m)
    ensures BooksKept(ReadAll(m, items).1)
    decreases |items|
  {
    if items != [] && items[0].Tool? {
      NextKeepsBooks(m, items[0].e);
      if Next(m, items[0].e).1 {
        ReadKeepsBooks(Next(m, items[0].e).0, items[1..]);
      }
    }
  }

  // ---- duplicates, in any stream ------------------------------------------------

  /** The memory after `es`, distinct ids or not. */
  function Remembered(m: Memory, es: seq<Event>): Memory {
    if es == [] then m else Next(Remembered(m, es[..|es| - 1]), es[|es| - 1]).0
  }

  /** An earlier start has the signature of `e`. */
  ghost predicate SeenBefore(es: seq<Event>, e: Event)
    requires e.ToolStart?
  {
    exists k :: 0 <= k < |es| && Starts(es[k]) && es[k].name + "_" + es[k].id == e.name + "_" + e.id
  }

  lemma {:induction false} SignaturesAreStarts(n: nat, es: seq<Event>, e: Event)
    requires e.ToolStart?
    ensures Signature(e) in Remembered(Nothing(n), es).tables.signatures <==> SeenBefore(es, e)
  {
    if es != [] {
      var front, last := es[..|es| - 1], es[|es| - 1];
      SignaturesAreStarts(n, front, e);
      OneMoreSignature(Remembered(Nothing(n), front), last);
      assert SeenBefore(front, e) ==> SeenBefore(es, e);
    }
  }

  lemma OneMoreSignature(m: Memory, e: Event)
    ensures Next(m, e).0.tables.signatures == m.tables.signatures + if Starts(e) then {Signature(e)} else {}
  {
  }

  /** A start opens a call exactly if no earlier start of the response has its
      signature; otherwise its stream index is skipped. */
  lemma OpensIff(n: nat, es: seq<Event>, e: Event)
    requires Starts(e)
    ensures var m := Remembered(Nothing(n), es);
            var m' := Next(m, e).0;
            && (m'.tables.calls == m.tables.calls + [Call(e.id, e.name, "")] <==> !SeenBefore(es, e))
            && (SeenBefore(es, e) ==> m' == m.(tables := m.tables.(skipped := m.tables.skipped + {e.index})))
  {
    SignaturesAreStarts(n, es, e);
    var calls := Remembered(Nothing(n), es).tables.calls;
    assert |calls + [Call(e.id, e.name, "")]| == |calls| + 1;
  }

  lemma {:induction false} ViewInsert(active: seq<Active>, a: Active, index: int)
    requires View(active, index).None? && a.index != index
    ensures View(Insert(active, a), index).None?
  {
    if active != [] && active[0].id != a.id {
      ViewInsert(active[1..], a, index);
      assert Insert(active, a)[1..] == Insert(active[1..], a);
    } else if active != [] {
      assert Insert(active, a)[1..] == active[1..];
    }
  }

  lemma {:induction false} ViewFragment(active: seq<Active>, at: int, fragment: string, index: int)
    requires View(active, index).None?
    ensures View(AddFragment(active, at, fragment), index).None?
  {
    if Lookup(active, at).Some? {
      ViewUpdate(active, at, View(active, at).value.json + fragment, index);
    }
  }

  /** Nothing is active at `index`. */
  predicate Idle(m: Memory, index: int) {
    View(m.tables.active, index).None?
  }

  lemma StaysIdle(m: Memory, e: Event, index: int)
    requires Idle(m, index) && (Starts(e) ==> e.index != index)
    ensures Idle(Next(m, e).0, index)
  {
    match e
    case ToolStart(_, _, _) =>
      if Starts(e) {
        ViewInsert(m.tables.active, Active(e.id, e.name, "", e.index), index);
      }
    case ToolInput(at, fragment) => ViewFragment(m.tables.active, at, fragment, index);
    case ToolEnd(_, _) =>
    case Text(_) =>
    case Quiet =>
  }

  /** Whatever comes for a stream index at which no call was opened, fragments
      and ends of it do nothing: a call dropped as a duplicate gets no result. */
  lemma {:induction false} DroppedGetsNothing(m: Memory, more: seq<Event>, e: Event, index: int)
    requires Idle(m, index) && forall x :: x in more && Starts(x) ==> x.index != index
    requires (e.ToolInput? || e.ToolEnd?) && e.index == index
    ensures Next(Remembered(m, more), e) == (Remembered(m, more), true)
    ensures Idle(Remembered(m, more), index)
  {
    if more != [] {
      DroppedGetsNothing(m, more[..|more| - 1], e, index);
      assert more[|more| - 1] in more;
      StaysIdle(Remembered(m, more[..|more| - 1]), more[|more| - 1], index);
    }
  }

  /** Two different calls can share a signature: then the second is dropped,
      and no end of it produces a result. */
  lemma SignaturesCollide(n: nat, o: EndOutcome)
    ensures var a, b := ToolStart(0, "b_c", "a"), ToolStart(1, "c", "a_b");
            && a.id != b.id && a.index != b.index && Signature(a) == Signature(b)
            && Next(Next(Next(Nothing(n), a).0, b).0, ToolEnd(1, o)).0.tables.results == []
            && Next(Next(Nothing(n), a).0, b).0.tables.calls == [Call(a.id, a.name, "")]
  {
    var a, b := ToolStart(0, "b_c", "a"), ToolStart(1, "c", "a_b");
    assert "a" + "_" + "b_c" == "a_b" + "_" + "c";
    var m := Next(Nothing(n), a).0;
    Nil([Call(a.id, a.name, "")]);
    assert Idle(Nothing(n), 1);
    StaysIdle(Nothing(n), a, 1);
    DroppedGetsNothing(Next(m, b).0, [], ToolEnd(1, o), 1);
  }

  // ---- what an end adds -------------------------------------------------------

  /** An object in braces, with white space around it at most. */
  ghost predicate Braced(json: string) {
    exists pre, mid, post :: json == pre + "{" + mid + "}" + post && Blank(pre) && Blank(post)
  }

  lemma BracedTrims(json: string, pre: string, mid: string, post: string)
    requires json == pre + "{" + mid + "}" + post && Blank(pre) && Blank(post)
    ensures Strip(json) == "{" + mid + "}"
  {
    var ink := "{" + mid + "}";
    assert json == pre + ink + post;
    StripIs(pre, ink, post);
  }

  lemma AroundStrip(json: string) returns (pre: string, post: string)
    ensures json == pre + Strip(json) + post && Blank(pre) && Blank(post)
  {
    StripSpec(json);
    var i, j :| 0 <= i <= j <= |json| && Strip(json) == json[i..j] && Blank(json[..i]) && Blank(json[j..]);
    pre, post := json[..i], json[j..];
  }

  lemma BetweenBraces(s: string) returns (mid: string)
    requires s != "" && s[0] == '{' && s[|s| - 1] == '}'
    ensures s == "{" + mid + "}"
  {
    mid := s[1..|s| - 1];
  }

  lemma CompleteIsBraced(json: string)
    requires !Incomplete(json) && !Blank(json)
    ensures Braced(json)
  {
    StripSpec(json);
    var pre, post := AroundStrip(json);
    var mid := BetweenBraces(Strip(json));
    assert json == pre + "{" + mid + "}" + post;
  }

  /** Arguments are taken for complete exactly if they are blank or in braces. */
  lemma CompleteIff(json: string)
    ensures !Incomplete(json) <==> Blank(json) || Braced(json)
  {
    if Blank(json) {
      StripSpec(json);
    } else if Braced(json) {
      var pre, mid, post :| json == pre + "{" + mid + "}" + post && Blank(pre) && Blank(post);
      BracedTrims(json, pre, mid, post);
    } else if !Incomplete(json) {
      CompleteIsBraced(json);
    }
  }

  /** The result of a call with complete arguments. */
  predicate Answers(o: EndOutcome, r: RawResult)
    requires !o.StoppedBefore?
  {
    if o.Ran? then r == Output(o.result)
    else r.Rejected? && r.why == if o.ParseError? then BadJson else if o.SchemaError? then BadSchema
                                 else if o.EmptyArgs? then NoArgs else NoCommand
  }

  /** What the first end of an active call adds: one result, the rejection of
      arguments that are neither blank nor in braces, or else what its outcome
      says; nothing if the user stopped it, which ends the reading. Rejections
      other than for feedback are counted as empty calls. */
  lemma EndAddsIff(m: Memory, e: Event)
    requires e.ToolEnd? && View(m.tables.active, e.index).Some?
    requires View(m.tables.active, e.index).value.id !in m.tables.completed
    ensures var tool := View(m.tables.active, e.index).value;
            var (m', more) := Next(m, e);
            var skip, complete := m.tables.feedbackReceived, Blank(tool.json) || Braced(tool.json);
            if !skip && complete && e.outcome.StoppedBefore? then m' == m && !more
            else
              && |m'.tables.results| == |m.tables.results| + 1
              && m'.tables.results[..|m.tables.results|] == m.tables.results
              && var r := m'.tables.results[|m.tables.results|];
                 && r.id == tool.id && r.name == tool.name
                 && (if skip then r.result == Rejected(FeedbackSkip)
                     else if !complete then r.result == Rejected(IncompleteJson)
                     else Answers(e.outcome, r.result))
                 && m'.emptyInARow == m.emptyInARow + (if r.result.Rejected? && !skip then 1 else 0)
                 && (more <==> !(r.result.Output? && e.outcome.stopAfter))
  {
    CompleteIff(View(m.tables.active, e.index).value.json);
  }
}
