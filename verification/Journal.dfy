/** Crash-resumable microbatches (exec_env.py: step_batch_resumable, exec_journal.py). A call looks up each
    microbatch in the journal, writes "running" before it sends, and writes the outcome before it goes on.
    The steps below are single effects of the calls of one process at a time; the process may crash between
    any two of them, and later processes may resume the same calls any number of times. */
module Journal {
  import opened Wrappers

  type Item = string

  type Answer = seq<string>

  /** One microbatch of an environment call. */
  datatype Key = Key(call: string, index: nat)

  datatype Status = Pending | Running | Complete | Failed | Unknown

  datatype Rec = Rec(status: Status, request: seq<Item>, response: Option<Answer>)

  type Records = map<Key, Rec>

  datatype Phase =
    | Looking    // about to look its microbatch up
    | Ready      // "running" is on disk, nothing sent yet
    | Sent       // waiting for the answer

  datatype Call = Call(id: string, batches: seq<seq<Item>>, pos: nat, phase: Phase, merged: Answer)

  /** A put between writing the temporary file and replacing the journal: the record it adds,
      and the call afterwards, unless it raises. */
  datatype Writing = Writing(c: nat, key: Key, rec: Rec, next: Option<Call>)

  /** The journal file, the temporary file, the put under way, the running calls, and what the server saw:
      how often each microbatch was sent, and its answers. */
  datatype State = State(journal: Records, tmp: Option<Records>, put: Option<Writing>, calls: map<nat, Call>,
                         sent: map<Key, nat>, answered: map<Key, (seq<Item>, Answer)>)

  datatype Action =
    | Start(c: nat, id: string, items: seq<Item>, size: nat)
    | Look(c: nat)
    | Replace                      // the temporary file becomes the journal
    | Send(c: nat)
    | Reply(c: nat, answer: Answer)
    | Raise(c: nat)                // step_batch raises, before or after the request went out
    | Return(c: nat)
    | Crash

  // ---------------------------------------------------------------- microbatches

  function Chunks(items: seq<Item>, size: nat): seq<seq<Item>>
    decreases |items|
  {
    if size == 0 || items == [] then []
    else if |items| <= size then [items]
    else [items[..size]] + Chunks(items[size..], size)
  }

  function Concat(parts: seq<Answer>): Answer {
    if parts == [] then [] else parts[0] + Concat(parts[1..])
  }

  lemma {:induction false} ConcatLast(parts: seq<Answer>, last: Answer)
    ensures Concat(parts + [last]) == Concat(parts) + last
  {
    if parts == [] {
      assert [last][1..] == [];
    } else {
      ConcatLast(parts[1..], last);
      assert (parts + [last])[1..] == parts[1..] + [last];
    }
  }

  /** The microbatches are the items in order, cut into pieces of the given size but for the last. */
  lemma {:induction false} ChunksJoin(items: seq<Item>, size: nat)
    requires size > 0
    ensures Concat(Chunks(items, size)) == items
    ensures forall k :: 0 <= k < |Chunks(items, size)| ==> 0 < |Chunks(items, size)[k]| <= size
    ensures forall k :: 0 <= k < |Chunks(items, size)| - 1 ==> |Chunks(items, size)[k]| == size
    decreases |items|
  {
    if |items| > size {
      ChunksJoin(items[size..], size);
      assert items == items[..size] + items[size..];
    } else if items != [] {
      assert Concat([items]) == items + Concat([]);
    }
  }

  // ---------------------------------------------------------------- the steps

  function KeyOf(call: Call): Key {
    Key(call.id, call.pos)
  }

  function Count(sent: map<Key, nat>, key: Key): nat {
    if key in sent then sent[key] else 0
  }

  /** put up to its temporary file. */
  function Written(s: State, c: nat, rec: Rec, next: Option<Call>): State
    requires c in s.calls
  {
    var key := KeyOf(s.calls[c]);
    s.(tmp := Some(s.journal[key := rec]), put := Some(Writing(c, key, rec, next)))
  }

  function Ended(s: State, c: nat): State {
    s.(calls := s.calls - {c})
  }

  /** The head of the loop body for one microbatch. */
  function Looked(s: State, c: nat): State
    requires c in s.calls && s.calls[c].pos < |s.calls[c].batches|
  {
    var call := s.calls[c];
    var request := call.batches[call.pos];
    if KeyOf(call) !in s.journal then Written(s, c, Rec(Running, request, None), Some(call.(phase := Ready)))
    else
      var rec := s.journal[KeyOf(call)];
      if rec.request != request then Ended(s, c)
      else if rec.status == Complete && rec.response.Some? then
        s.(calls := s.calls[c := call.(pos := call.pos + 1, merged := call.merged + rec.response.value)])
      else Ended(s, c)
  }

  function Answered(s: State, c: nat, answer: Answer): State
    requires c in s.calls && s.calls[c].pos < |s.calls[c].batches|
  {
    var call := s.calls[c];
    var request := call.batches[call.pos];
    Written(s, c, Rec(Complete, request, Some(answer)),
            Some(call.(pos := call.pos + 1, phase := Looking, merged := call.merged + answer)))
      .(answered := s.answered[KeyOf(call) := (request, answer)])
  }

  predicate Active(s: State, c: nat) {
    s.put.None? && c in s.calls && s.calls[c].pos < |s.calls[c].batches|
  }

  /** One effect; an effect that is not possible changes nothing. */
  function Next(s: State, a: Action): State {
    match a
    case Start(c, id, items, size) =>
      if s.put.None? && c !in s.calls && size > 0
          then s.(calls := s.calls[c := Call(id, Chunks(items, size), 0, Looking, [])]) else s
    case Look(c) => if Active(s, c) && s.calls[c].phase == Looking then Looked(s, c) else s
    case Replace =>
      if s.put.Some? && s.tmp.Some? then
        var w := s.put.value;
        s.(journal := s.tmp.value, tmp := None, put := None,
           calls := if w.next.Some? then s.calls[w.c := w.next.value] else s.calls - {w.c})
      else s
    case Send(c) =>
      if Active(s, c) && s.calls[c].phase == Ready then
        s.(sent := s.sent[KeyOf(s.calls[c]) := Count(s.sent, KeyOf(s.calls[c])) + 1],
           calls := s.calls[c := s.calls[c].(phase := Sent)])
      else s
    case Reply(c, answer) => if Active(s, c) && s.calls[c].phase == Sent then Answered(s, c, answer) else s
    case Raise(c) =>
      if Active(s, c) && s.calls[c].phase != Looking then
        Written(s, c, Rec(Unknown, s.calls[c].batches[s.calls[c].pos], None), None)
      else s
    case Return(c) =>
      if s.put.None? && c in s.calls && s.calls[c].phase == Looking && s.calls[c].pos >= |s.calls[c].batches|
          then Ended(s, c) else s
    case Crash => s.(put := None, calls := map[])
  }

  function Run(s: State, actions: seq<Action>): State
    decreases |actions|
  {
    if actions == [] then s else Run(Next(s, actions[0]), actions[1..])
  }

  const EMPTY := State(map[], None, None, map[], map[], map[])

  // ---------------------------------------------------------------- the invariant

  predicate Settled(journal: Records, key: Key) {
    key in journal && journal[key].status == Complete && journal[key].response.Some?
  }

  /** The recorded responses of the first n microbatches of a call. */
  function Recorded(journal: Records, id: string, n: nat): Answer
    requires forall k :: 0 <= k < n ==> Settled(journal, Key(id, k))
  {
    if n == 0 then []
    else
      assert Settled(journal, Key(id, n - 1));
      Recorded(journal, id, n - 1) + journal[Key(id, n - 1)].response.value
  }

  /** What a call has gathered so far, and what is announced and sent for the microbatch it works on. */
  ghost predicate CallOk(journal: Records, sent: map<Key, nat>, call: Call) {
    && call.pos <= |call.batches|
    && (forall k :: 0 <= k < call.pos ==>
        Settled(journal, Key(call.id, k)) && journal[Key(call.id, k)].request == call.batches[k])
    && call.merged == Recorded(journal, call.id, call.pos)
    && (call.phase != Looking ==>
          && call.pos < |call.batches|
          && KeyOf(call) in journal && journal[KeyOf(call)] == Rec(Running, call.batches[call.pos], None)
          && Count(sent, KeyOf(call)) == (if call.phase == Sent then 1 else 0))
  }

  ghost predicate CallsOk(journal: Records, sent: map<Key, nat>, calls: map<nat, Call>) {
    forall c :: c in calls ==> CallOk(journal, sent, calls[c])
  }

  /** The put under way, seen from its call. */
  ghost predicate WritingOk(w: Writing, call: Call, journal: Records, answered: map<Key, (seq<Item>, Answer)>) {
    && w.key == KeyOf(call) && call.pos < |call.batches| && w.rec.request == call.batches[call.pos]
    && match w.rec.status
       case Running => call.phase == Looking && w.key !in journal && w.rec.response == None
                       && w.next == Some(call.(phase := Ready))
       case Complete => call.phase == Sent && w.rec.response.Some?
                        && w.key in answered && answered[w.key] == (w.rec.request, w.rec.response.value)
                        && w.next == Some(call.(pos := call.pos + 1, phase := Looking,
                                                merged := call.merged + w.rec.response.value))
       case Unknown => call.phase != Looking && w.next == None
       case _ => false
  }

  ghost predicate PutOk(s: State) {
    s.put.Some? ==>
      var w := s.put.value;
      && w.c in s.calls && s.tmp == Some(s.journal[w.key := w.rec]) && WritingOk(w, s.calls[w.c], s.journal, s.answered)
  }

  /** No two calls work on the same microbatch. */
  ghost predicate Unique(calls: map<nat, Call>) {
    forall c, d :: c in calls && d in calls && SameWork(calls[c], calls[d]) ==> c == d
  }

  predicate SameWork(a: Call, b: Call) {
    a.phase != Looking && b.phase != Looking && KeyOf(a) == KeyOf(b)
  }

  /** Microbatches are settled in order. */
  ghost predicate InOrder(journal: Records) {
    forall key, j :: key in journal && 0 <= j < key.index ==> Settled(journal, Key(key.call, j))
  }

  /** What is on disk and what the server saw agree: everything sent was announced in the journal first, nothing
      was sent twice, and every complete record holds the answer to its own request. */
  ghost predicate Agrees(journal: Records, sent: map<Key, nat>, answered: map<Key, (seq<Item>, Answer)>) {
    && (forall key :: Count(sent, key) > 0 ==> Count(sent, key) == 1 && key in journal)
    && (forall key :: key in answered ==> Count(sent, key) == 1)
    && (forall key :: key in journal && journal[key].status == Complete ==>
          && journal[key].response.Some? && key in answered
          && answered[key] == (journal[key].request, journal[key].response.value))
  }

  ghost predicate Inv(s: State) {
    && CallsOk(s.journal, s.sent, s.calls) && Unique(s.calls) && PutOk(s)
    && InOrder(s.journal) && Agrees(s.journal, s.sent, s.answered)
  }

  /** Settled records do not change. */
  lemma {:induction false} RecordedSame(a: Records, b: Records, id: string, n: nat)
    requires forall k :: 0 <= k < n ==>
        Settled(a, Key(id, k)) && Settled(b, Key(id, k)) && b[Key(id, k)] == a[Key(id, k)]
    ensures Recorded(a, id, n) == Recorded(b, id, n)
  {
    if n == 0 {
    } else {
      assert Settled(a, Key(id, n - 1));
      RecordedSame(a, b, id, n - 1);
    }
  }

  /** A call keeps what it knows when an unsettled record of another microbatch changes. */
  lemma CallFrame(journal: Records, sent: map<Key, nat>, call: Call, key: Key, rec: Rec)
    requires CallOk(journal, sent, call) && !Settled(journal, key)
    requires call.phase != Looking ==> KeyOf(call) != key
    ensures CallOk(journal[key := rec], sent, call)
  {
    forall k | 0 <= k < call.pos ensures Settled(journal[key := rec], Key(call.id, k))
        && journal[key := rec][Key(call.id, k)] == journal[Key(call.id, k)] {
      assert Settled(journal, Key(call.id, k));
    }
    RecordedSame(journal, journal[key := rec], call.id, call.pos);
  }

  lemma EndedKeeps(s: State, c: nat)
    requires Inv(s) && s.put.None?
    ensures Inv(Ended(s, c))
  {
    hide CallOk, InOrder, Agrees, SameWork;
  }

  lemma WrittenKeeps(s: State, c: nat, rec: Rec, next: Option<Call>, answered: map<Key, (seq<Item>, Answer)>)
    requires Inv(s) && s.put.None? && c in s.calls
    requires Agrees(s.journal, s.sent, answered)
    requires WritingOk(Writing(c, KeyOf(s.calls[c]), rec, next), s.calls[c], s.journal, answered)
    ensures Inv(Written(s, c, rec, next).(answered := answered))
  {
    hide CallsOk, InOrder, Agrees, Unique, WritingOk;
  }

  lemma LookKeeps(s: State, c: nat)
    requires Inv(s) && Active(s, c) && s.calls[c].phase == Looking
    ensures Inv(Looked(s, c))
  {
    var call := s.calls[c];
    var key := KeyOf(call);
    if key !in s.journal {
      WrittenKeeps(s, c, Rec(Running, call.batches[call.pos], None), Some(call.(phase := Ready)), s.answered);
    } else {
      var rec := s.journal[key];
      if rec.request == call.batches[call.pos] && rec.status == Complete && rec.response.Some? {
        AdvanceKeeps(s, c);
      } else {
        EndedKeeps(s, c);
      }
    }
    hide Inv, CallOk;
  }

  lemma AdvanceKeeps(s: State, c: nat)
    requires Inv(s) && Active(s, c) && s.calls[c].phase == Looking
    requires
      var call := s.calls[c];
      && Settled(s.journal, KeyOf(call)) && s.journal[KeyOf(call)].request == call.batches[call.pos]
    ensures
      var call := s.calls[c];
      var next := call.(pos := call.pos + 1, merged := call.merged + s.journal[KeyOf(call)].response.value);
      Inv(s.(calls := s.calls[c := next]))
  {
    var call := s.calls[c];
    assert CallOk(s.journal, s.sent, call);
    var next := call.(pos := call.pos + 1, merged := call.merged + s.journal[KeyOf(call)].response.value);
    assert CallOk(s.journal, s.sent, next);
    hide CallOk, InOrder, Agrees, KeyOf;
  }

  lemma SentAgrees(journal: Records, sent: map<Key, nat>, answered: map<Key, (seq<Item>, Answer)>, key: Key)
    requires Agrees(journal, sent, answered) && Count(sent, key) == 0 && key in journal
    ensures Agrees(journal, sent[key := 1], answered)
  {
    forall k ensures Count(sent[key := 1], k) == if k == key then 1 else Count(sent, k) {}
  }

  lemma SendKeeps(s: State, c: nat)
    requires Inv(s) && Active(s, c) && s.calls[c].phase == Ready
    ensures Inv(Next(s, Send(c)))
  {
    var call := s.calls[c];
    assert CallOk(s.journal, s.sent, call);
    var sent := s.sent[KeyOf(call) := 1];
    var next := call.(phase := Sent);
    SentAgrees(s.journal, s.sent, s.answered, KeyOf(call));
    hide InOrder, Agrees;
    assert CallOk(s.journal, sent, next);
    forall d | d in s.calls && d != c ensures CallOk(s.journal, sent, s.calls[d]) {
      assert CallOk(s.journal, s.sent, s.calls[d]);
      assert SameWork(call, s.calls[d]) ==> c == d;
    }
    hide CallOk, KeyOf, Count;
  }

  /** The record of an unsettled microbatch whose predecessors are settled becomes the given one. */
  lemma JournalGrows(s: State, key: Key, rec: Rec)
    requires InOrder(s.journal) && Agrees(s.journal, s.sent, s.answered)
    requires !Settled(s.journal, key) && forall k :: 0 <= k < key.index ==> Settled(s.journal, Key(key.call, k))
    requires rec.status == Complete ==>
      rec.response.Some? && key in s.answered && s.answered[key] == (rec.request, rec.response.value)
    ensures InOrder(s.journal[key := rec]) && Agrees(s.journal[key := rec], s.sent, s.answered)
  {
    forall k, j | k in s.journal[key := rec] && 0 <= j < k.index
      ensures Settled(s.journal[key := rec], Key(k.call, j)) {
      assert Settled(s.journal, Key(k.call, j));
    }
  }

  /** No other call works on the microbatch of the put under way. */
  lemma OtherMicrobatch(s: State, d: nat)
    requires Inv(s) && s.put.Some? && d in s.calls && d != s.put.value.c && s.calls[d].phase != Looking
    ensures KeyOf(s.calls[d]) != s.put.value.key
  {
    assert CallOk(s.journal, s.sent, s.calls[d]);
    hide CallOk, Recorded, InOrder, Agrees;
    assert s.calls[s.put.value.c].phase != Looking ==> !SameWork(s.calls[s.put.value.c], s.calls[d]);
  }

  /** The call whose put just reached the disk. */
  lemma NextCallOk(journal: Records, sent: map<Key, nat>, answered: map<Key, (seq<Item>, Answer)>, w: Writing,
                   call: Call)
    requires CallOk(journal, sent, call) && WritingOk(w, call, journal, answered) && w.next.Some?
    requires Count(sent, w.key) > 0 ==> w.key in journal
    ensures CallOk(journal[w.key := w.rec], sent, w.next.value)
  {
    var after := journal[w.key := w.rec];
    forall k | 0 <= k < call.pos ensures Settled(after, Key(call.id, k))
        && after[Key(call.id, k)] == journal[Key(call.id, k)] {
      assert Settled(journal, Key(call.id, k));
    }
    RecordedSame(journal, after, call.id, call.pos);
    if w.rec.status == Complete {
      assert Settled(after, Key(call.id, call.pos));
    }
  }

  function AfterPut(calls: map<nat, Call>, w: Writing): map<nat, Call> {
    if w.next.Some? then calls[w.c := w.next.value] else calls - {w.c}
  }

  lemma ReplacedCalls(s: State)
    requires Inv(s) && s.put.Some?
    ensures CallsOk(s.journal[s.put.value.key := s.put.value.rec], s.sent, AfterPut(s.calls, s.put.value))
    ensures Unique(AfterPut(s.calls, s.put.value))
  {
    var w := s.put.value;
    var call := s.calls[w.c];
    hide Recorded, InOrder;
    assert CallOk(s.journal, s.sent, call);
    assert !Settled(s.journal, w.key) && (Count(s.sent, w.key) > 0 ==> w.key in s.journal);
    hide Agrees, Settled;
    forall d | d in s.calls && d != w.c && s.calls[d].phase != Looking ensures KeyOf(s.calls[d]) != w.key {
      OtherMicrobatch(s, d);
    }
    assert w.next.Some? && w.next.value.phase != Looking ==> KeyOf(w.next.value) == w.key;
    if w.next.Some? {
      NextCallOk(s.journal, s.sent, s.answered, w, call);
    }
    hide CallOk, WritingOk, KeyOf;
    forall d | d in s.calls && d != w.c ensures CallOk(s.journal[w.key := w.rec], s.sent, s.calls[d]) {
      CallFrame(s.journal, s.sent, s.calls[d], w.key, w.rec);
    }
  }

  lemma ReplaceKeeps(s: State)
    requires Inv(s) && s.put.Some?
    ensures Inv(Next(s, Replace))
  {
    var w := s.put.value;
    assert CallOk(s.journal, s.sent, s.calls[w.c]);
    ReplacedCalls(s);
    JournalGrows(s, w.key, w.rec);
    hide InOrder, Agrees, CallsOk, Unique, WritingOk;
  }

  lemma ReplyKeeps(s: State, c: nat, answer: Answer)
    requires Inv(s) && Active(s, c) && s.calls[c].phase == Sent
    ensures Inv(Answered(s, c, answer))
  {
    var call := s.calls[c];
    var request := call.batches[call.pos];
    assert CallOk(s.journal, s.sent, call);
    var answered := s.answered[KeyOf(call) := (request, answer)];
    assert Agrees(s.journal, s.sent, answered);
    hide Inv, CallOk, Agrees;
    WrittenKeeps(s, c, Rec(Complete, request, Some(answer)),
                 Some(call.(pos := call.pos + 1, phase := Looking, merged := call.merged + answer)), answered);
  }

  lemma StartKeeps(s: State, c: nat, id: string, items: seq<Item>, size: nat)
    requires Inv(s) && s.put.None? && c !in s.calls
    ensures Inv(s.(calls := s.calls[c := Call(id, Chunks(items, size), 0, Looking, [])]))
  {
    var call := Call(id, Chunks(items, size), 0, Looking, []);
    assert CallOk(s.journal, s.sent, call);
    hide CallOk, InOrder, Agrees, KeyOf;
  }

  lemma NextKeepsInv(s: State, a: Action)
    requires Inv(s)
    ensures Inv(Next(s, a))
  {
    match a
    case Start(c, id, items, size) =>
      if s.put.None? && c !in s.calls && size > 0 { StartKeeps(s, c, id, items, size); }
      hide Inv;
    case Look(c) => if Active(s, c) && s.calls[c].phase == Looking { LookKeeps(s, c); } hide Inv, Looked;
    case Replace => if s.put.Some? { ReplaceKeeps(s); } hide Inv;
    case Send(c) => if Active(s, c) && s.calls[c].phase == Ready { SendKeeps(s, c); } hide Inv;
    case Reply(c, answer) => if Active(s, c)
        && s.calls[c].phase == Sent { ReplyKeeps(s, c, answer); } hide Inv, Answered;
    case Raise(c) =>
      if Active(s, c) && s.calls[c].phase != Looking {
        WrittenKeeps(s, c, Rec(Unknown, s.calls[c].batches[s.calls[c].pos], None), None, s.answered);
      }
      hide Inv;
    case Return(c) => if s.put.None? { EndedKeeps(s, c); } hide Inv;
    case Crash =>
      hide CallOk, InOrder, Agrees;
  }

  lemma {:induction false} RunKeepsInv(s: State, actions: seq<Action>)
    requires Inv(s)
    ensures Inv(Run(s, actions))
    decreases |actions|
  {
    hide Inv, Next;
    if actions == [] {
    } else {
      NextKeepsInv(s, actions[0]);
      RunKeepsInv(Next(s, actions[0]), actions[1..]);
    }
  }

  lemma EmptyInv()
    ensures Inv(EMPTY)
  {}

  // ---------------------------------------------------------------- what all runs promise

  /** With a crash possible between any two effects and any number of resumes, no microbatch is ever sent twice. */
  lemma AtMostOnce(actions: seq<Action>, key: Key)
    ensures Count(Run(EMPTY, actions).sent, key) <= 1
  {
    EmptyInv();
    RunKeepsInv(EMPTY, actions);
    hide Run;
  }

  /** Nothing is sent before the journal on disk announces it. */
  lemma AnnouncedFirst(actions: seq<Action>, key: Key)
    requires Count(Run(EMPTY, actions).sent, key) > 0
    ensures key in Run(EMPTY, actions).journal
  {
    EmptyInv();
    RunKeepsInv(EMPTY, actions);
    hide Run;
  }

  /** A record of a microbatch means that all earlier ones of its call are complete, each with the answer the
      server gave to the one request it was sent. */
  lemma RecordsInOrder(actions: seq<Action>, key: Key, j: nat)
    requires key in Run(EMPTY, actions).journal && j < key.index
    ensures
      var s := Run(EMPTY, actions);
      var k := Key(key.call, j);
      && Settled(s.journal, k) && Count(s.sent, k) == 1
      && k in s.answered && s.answered[k] == (s.journal[k].request, s.journal[k].response.value)
  {
    EmptyInv();
    RunKeepsInv(EMPTY, actions);
    hide Run;
    assert Settled(Run(EMPTY, actions).journal, Key(key.call, j));
  }

  /** The answers of the server to the first n microbatches of a call. */
  function Answers(s: State, id: string, n: nat): Answer
    requires forall k :: 0 <= k < n ==> Key(id, k) in s.answered
  {
    if n == 0 then [] else Answers(s, id, n - 1) + s.answered[Key(id, n - 1)].1
  }

  lemma {:induction false} RecordedAnswers(s: State, id: string, n: nat)
    requires Agrees(s.journal, s.sent, s.answered) && forall k :: 0 <= k < n ==> Settled(s.journal, Key(id, k))
    ensures forall k :: 0 <= k < n ==> Key(id, k) in s.answered
    ensures Recorded(s.journal, id, n) == Answers(s, id, n)
  {
    forall k | 0 <= k < n ensures Key(id, k) in s.answered {
      assert Settled(s.journal, Key(id, k));
    }
    if n == 0 {
    } else {
      assert Settled(s.journal, Key(id, n - 1));
      RecordedAnswers(s, id, n - 1);
    }
  }

  /** A call that returns yields what a run without crashes would: the server's answers to exactly its
      microbatches, each sent exactly once, concatenated in order. */
  lemma ReturnYieldsAnswers(actions: seq<Action>, c: nat)
    requires
      var s := Run(EMPTY, actions);
      c in s.calls && s.calls[c].phase == Looking && s.calls[c].pos == |s.calls[c].batches|
    ensures
      var s := Run(EMPTY, actions);
      var call := s.calls[c];
      && (forall k :: 0 <= k < |call.batches| ==>
            && Count(s.sent, Key(call.id, k)) == 1 && Key(call.id, k) in s.answered
            && s.answered[Key(call.id, k)].0 == call.batches[k])
      && call.merged == Answers(s, call.id, |call.batches|)
  {
    EmptyInv();
    RunKeepsInv(EMPTY, actions);
    var s := Run(EMPTY, actions);
    hide Run;
    var call := s.calls[c];
    assert CallOk(s.journal, s.sent, call);
    RecordedAnswers(s, call.id, |call.batches|);
    forall k | 0 <= k < |call.batches|
      ensures Count(s.sent, Key(call.id, k)) == 1 && Key(call.id, k) in s.answered
          && s.answered[Key(call.id, k)].0 == call.batches[k]
    {
      assert Settled(s.journal, Key(call.id, k));
    }
  }

  // ---------------------------------------------------------------- uncertain microbatches

  /** Announced, never settled, and nobody is working on it: what a crash or a failed request leaves. */
  ghost predicate Abandoned(s: State, key: Key) {
    && key in s.journal && !Settled(s.journal, key)
    && (forall c :: c in s.calls && s.calls[c].phase != Looking ==> KeyOf(s.calls[c]) != key)
    && (s.put.Some? ==> s.put.value.key != key)
  }

  lemma AbandonedStep(s: State, a: Action, key: Key)
    requires Inv(s) && Abandoned(s, key)
    ensures Abandoned(Next(s, a), key) && Count(Next(s, a).sent, key) == Count(s.sent, key)
  {
    hide CallsOk, InOrder, Agrees, Unique, Chunks;
    match a
    case Look(c) => assert Active(s, c) && KeyOf(s.calls[c]) == key ==> KeyOf(s.calls[c]) in s.journal;
    case _ =>
  }

  /** An uncertain microbatch is never tried again, however often its call is resumed. */
  lemma {:induction false} AbandonedForever(s: State, actions: seq<Action>, key: Key)
    requires Inv(s) && Abandoned(s, key)
    ensures Abandoned(Run(s, actions), key) && Count(Run(s, actions).sent, key) == Count(s.sent, key)
    decreases |actions|
  {
    hide Inv, Next, Abandoned;
    if actions == [] {
    } else {
      AbandonedStep(s, actions[0], key);
      NextKeepsInv(s, actions[0]);
      AbandonedForever(Next(s, actions[0]), actions[1..], key);
    }
  }

  // ---------------------------------------------------------------- the loop as it runs

  /** The two files of the journal. */
  datatype Files = Files(main: Records, tmp: Option<Records>)

  /** What a put of `rec` leaves on disk after each of its effects. */
  function PutEffects(main: Records, key: Key, rec: Rec): seq<Files> {
    [Files(main, Some(main[key := rec])), Files(main[key := rec], None)]
  }

  /** These are the two effects of a put in the protocol: its temporary file, then Replace. */
  lemma PutIsTwoEffects(s: State, c: nat, rec: Rec, next: Option<Call>)
    requires c in s.calls
    ensures
      var w := Written(s, c, rec, next);
      var r := Next(w, Replace);
      PutEffects(s.journal, KeyOf(s.calls[c]), rec) == [Files(w.journal, w.tmp), Files(r.journal, r.tmp)]
  {}

  class ExecMicrobatchJournal {
    var main: Records
    var tmp: Option<Records>

    constructor (main: Records)
      ensures this.main == main && tmp == None
    {
      this.main, this.tmp := main, None;
    }

    method Get(key: Key) returns (rec: Option<Rec>)
      ensures rec == if key in main then Some(main[key]) else None
    {
      rec := if key in main then Some(main[key]) else None;
    }

    /** put: the new records go to the temporary file, which then becomes the journal. `seen` are the files after each
        effect: whenever the process dies, the journal is the old one or the new one. */
    method Put(key: Key, rec: Rec) returns (ghost seen: seq<Files>)
      modifies this
      ensures main == old(main)[key := rec] && tmp == None
      ensures seen == PutEffects(old(main), key, rec)
      ensures forall f :: f in seen ==> f.main == old(main) || f.main == main
    {
      var raw := main;
      raw := raw[key := rec];
      tmp := Some(raw);
      seen := [Files(main, tmp)];
      main, tmp := tmp.value, None;
      seen := seen + [Files(main, tmp)];
    }
  }

  datatype Sending = Responds(answer: Answer) | Throws

  datatype Outcome =
    | Refused
    | Returns(merged: Answer)
    | Mismatch(at: nat)
    | Uncertain(at: nat, status: Status)
    | Propagates(at: nat)

  /** The effects of a call from microbatch k on, when nothing else happens. */
  function Script(c: nat, journal: Records, id: string, batches: seq<seq<Item>>, replies: seq<Sending>, k: nat)
    : seq<Action>
    requires k <= |batches| <= |replies|
    decreases |batches| - k
  {
    var key := Key(id, k);
    if k == |batches| then []
    else if key in journal then
      if journal[key].request == batches[k] && Settled(journal, key)
          then [Look(c)] + Script(c, journal, id, batches, replies, k + 1)
      else [Look(c)]
    else
      match replies[k]
      case Throws => [Look(c), Replace, Send(c), Raise(c), Replace]
      case Responds(a) =>
        [Look(c), Replace, Send(c), Reply(c, a), Replace]
        + Script(c, journal[key := Rec(Complete, batches[k], Some(a))], id, batches, replies, k + 1)
  }

  /** What the same call leaves in the journal and how it ends. */
  function Resumed(journal: Records, id: string, batches: seq<seq<Item>>, replies: seq<Sending>, k: nat, merged: Answer)
    : (Records, Outcome)
    requires k <= |batches| <= |replies|
    decreases |batches| - k
  {
    var key := Key(id, k);
    if k == |batches| then (journal, Returns(merged))
    else if key in journal then
      if journal[key].request != batches[k] then (journal, Mismatch(k))
      else if Settled(journal, key) then Resumed(journal, id, batches, replies, k + 1,
          merged + journal[key].response.value)
      else (journal, Uncertain(k, journal[key].status))
    else
      match replies[k]
      case Throws => (journal[key := Rec(Unknown, batches[k], None)], Propagates(k))
      case Responds(a) => Resumed(journal[key := Rec(Complete, batches[k], Some(a))], id, batches, replies, k + 1,
          merged + a)
  }

  /** How a call from microbatch k on ends, on the records. It gets through to microbatch `stop`: those before it were
      complete with their own request, or are sent and complete now with their answers. It stops at a record of another
      request, at one of its own request that is not complete with a response, or at a request that raises, which is
      recorded as unknown; at the end it returns the recorded responses in order. No other record changes. */
  ghost predicate EndsSo(before: Records, after: Records, id: string, batches: seq<seq<Item>>, replies: seq<Sending>,
                         k: nat, merged: Answer, outcome: Outcome, stop: nat, parts: seq<Answer>)
    requires |batches| <= |replies|
  {
    && k <= stop <= |batches| && |parts| == stop - k
    && (forall j :: k <= j < stop ==>
          && Key(id, j) in after
          && after[Key(id, j)] == Rec(Complete, batches[j], Some(parts[j - k]))
          && if Key(id, j) in before then after[Key(id, j)] == before[Key(id, j)]
             else replies[j] == Responds(parts[j - k]))
    && (forall key: Key :: key.call != id || key.index < k || key.index > stop ==>
          (key in after <==> key in before) && (key in before ==> after[key] == before[key]))
    && var key := Key(id, stop);
       match outcome
       case Refused => false
       case Returns(all) =>
         stop == |batches| && all == merged + Concat(parts) && (key in after <==> key in before)
         && (key in before ==> after[key] == before[key])
       case Mismatch(at) =>
         at == stop < |batches| && key in before && before[key].request != batches[at] && key in after
         && after[key] == before[key]
       case Uncertain(at, status) =>
         && at == stop < |batches| && key in before && before[key].request == batches[at]
         && (before[key].status == Complete ==> before[key].response == None)
         && status == before[key].status && key in after && after[key] == before[key]
       case Propagates(at) =>
         at == stop < |batches| && key !in before && replies[at] == Throws && key in after
         && after[key] == Rec(Unknown, batches[at], None)
  }

  /** One microbatch further on. */
  lemma EndsSoBefore(before: Records, next: Records, after: Records, id: string, batches: seq<seq<Item>>,
                     replies: seq<Sending>, k: nat, merged: Answer, part: Answer, outcome: Outcome, stop: nat,
                     parts: seq<Answer>)
    requires |batches| <= |replies| && k < |batches|
    requires EndsSo(next, after, id, batches, replies, k + 1, merged + part, outcome, stop, parts)
    requires next == before[Key(id, k) := Rec(Complete, batches[k], Some(part))]
    requires if Key(id, k) in before then next == before else replies[k] == Responds(part)
    ensures EndsSo(before, after, id, batches, replies, k, merged, outcome, stop, [part] + parts)
  {
    var all := [part] + parts;
    assert all[1..] == parts && Concat(all) == part + Concat(parts);
    hide Concat;
    assert merged + part + Concat(parts) == merged + Concat(all);
    assert Key(id, k) in after && after[Key(id, k)] == next[Key(id, k)];
  }

  lemma {:induction false} ResumedMeans(journal: Records, id: string, batches: seq<seq<Item>>, replies: seq<Sending>,
                                        k: nat, merged: Answer)
    returns (stop: nat, parts: seq<Answer>)
    requires k <= |batches| <= |replies|
    ensures var (after, outcome) := Resumed(journal, id, batches, replies, k, merged);
      EndsSo(journal, after, id, batches, replies, k, merged, outcome, stop, parts)
    decreases |batches| - k
  {
    var key := Key(id, k);
    stop, parts := k, [];
    if k == |batches| {
      assert merged + Concat([]) == merged;
    } else {
      var done := key in journal && journal[key].request == batches[k] && Settled(journal, key);
      if done || (key !in journal && replies[k].Responds?) {
        var part := if done then journal[key].response.value else replies[k].answer;
        var next := journal[key := Rec(Complete, batches[k], Some(part))];
        assert done ==> next == journal;
        var rest;
        stop, rest := ResumedMeans(next, id, batches, replies, k + 1, merged + part);
        parts := [part] + rest;
        var (after, outcome) := Resumed(next, id, batches, replies, k + 1, merged + part);
        EndsSoBefore(journal, next, after, id, batches, replies, k, merged, part, outcome, stop, rest);
      }
    }
  }

  /** step_batch_resumable: refuses a size that is not positive, otherwise runs the loop. */
  method StepBatchResumable(journal: ExecMicrobatchJournal, id: string, items: seq<Item>, size: int,
                            replies: seq<Sending>)
    returns (outcome: Outcome, ghost stop: nat, ghost parts: seq<Answer>)
    requires size > 0 ==> |replies| >= |Chunks(items, size)|
    modifies journal
    ensures size <= 0 ==> outcome == Refused && journal.main == old(journal.main)
    ensures size > 0 ==>
      (journal.main, outcome) == Resumed(old(journal.main), id, Chunks(items, size), replies, 0, [])
    ensures size > 0 ==>
      EndsSo(old(journal.main), journal.main, id, Chunks(items, size), replies, 0, [], outcome, stop, parts)
  {
    hide EndsSo, PutEffects, Chunks, Concat;
    stop, parts := 0, [];
    if size <= 0 {
      return Refused, stop, parts;
    }
    var batches := Chunks(items, size);
    stop, parts := ResumedMeans(journal.main, id, batches, replies, 0, []);
    ghost var goal := Resumed(journal.main, id, batches, replies, 0, []);
    var merged: Answer := [];
    var k := 0;
    while k < |batches|
      invariant k <= |batches|
      invariant Resumed(journal.main, id, batches, replies, k, merged) == goal
    {
      var key := Key(id, k);
      var record := journal.Get(key);
      if record.Some? {
        if record.value.request != batches[k] {
          return Mismatch(k), stop, parts;
        }
        if !(record.value.status == Complete && record.value.response.Some?) {
          return Uncertain(k, record.value.status), stop, parts;
        }
        merged := merged + record.value.response.value;
      } else {
        ghost var before := journal.main;
        var _ := journal.Put(key, Rec(Running, batches[k], None));
        match replies[k]
        case Throws =>
          var _ := journal.Put(key, Rec(Unknown, batches[k], None));
          assert journal.main == before[key := Rec(Unknown, batches[k], None)];
          return Propagates(k), stop, parts;
        case Responds(answer) =>
          var _ := journal.Put(key, Rec(Complete, batches[k], Some(answer)));
          assert journal.main == before[key := Rec(Complete, batches[k], Some(answer))];
          merged := merged + answer;
      }
      k := k + 1;
    }
    outcome := Returns(merged);
  }

  lemma RunCons(s: State, a: Action, rest: seq<Action>)
    ensures Run(s, [a] + rest) == Run(Next(s, a), rest)
  {
    hide Next;
    assert ([a] + rest)[0] == a && ([a] + rest)[1..] == rest;
  }

  lemma {:induction false} RunAppend(s: State, a: seq<Action>, b: seq<Action>)
    ensures Run(s, a + b) == Run(Run(s, a), b)
    decreases |a|
  {
    hide Next;
    if a == [] {
      assert a + b == b;
    } else {
      var rest := a[1..];
      assert a == [a[0]] + rest && a + b == [a[0]] + (rest + b);
      RunCons(s, a[0], rest + b);
      RunCons(s, a[0], rest);
      RunAppend(Next(s, a[0]), rest, b);
    }
  }

  lemma RunFive(s: State, a: Action, b: Action, c: Action, d: Action, e: Action)
    ensures Run(s, [a, b, c, d, e]) == Next(Next(Next(Next(Next(s, a), b), c), d), e)
    ensures Run(s, [a]) == Next(s, a)
  {
    hide Next;
    var t := Next(s, a);
    var u := Next(t, b);
    var v := Next(u, c);
    var w := Next(v, d);
    RunCons(s, a, [b, c, d, e]);
    RunCons(t, b, [c, d, e]);
    RunCons(u, c, [d, e]);
    RunCons(v, d, [e]);
    RunCons(w, e, []);
    RunCons(s, a, []);
    assert [a, b, c, d, e] == [a] + [b, c, d, e] && [b, c, d, e] == [b] + [c, d, e];
    assert [c, d, e] == [c] + [d, e] && [d, e] == [d] + [e];
    assert [e] == [e] + [] && [a] == [a] + [];
  }

  /** Announce and send. */
  lemma SentSteps(s: State, c: nat)
    requires Active(s, c) && s.calls[c].phase == Looking && KeyOf(s.calls[c]) !in s.journal
    ensures
      var call := s.calls[c];
      var t := Next(Next(Next(s, Look(c)), Replace), Send(c));
      && Active(t, c) && t.calls[c] == call.(phase := Sent)
      && t.journal == s.journal[KeyOf(call) := Rec(Running, call.batches[call.pos], None)]
  {}

  /** Record the answer, or that there is none. */
  lemma AnsweredSteps(s: State, c: nat, a: Answer)
    requires Active(s, c) && s.calls[c].phase == Sent
    ensures
      var call := s.calls[c];
      var t, u := Next(Next(s, Reply(c, a)), Replace), Next(Next(s, Raise(c)), Replace);
      && t.put.None? && c in t.calls && t.calls[c]
          == call.(pos := call.pos + 1, phase := Looking, merged := call.merged + a)
      && t.journal == s.journal[KeyOf(call) := Rec(Complete, call.batches[call.pos], Some(a))]
      && c !in u.calls && u.journal == s.journal[KeyOf(call) := Rec(Unknown, call.batches[call.pos], None)]
  {}

  lemma Overwrite(journal: Records, key: Key, a: Rec, b: Rec)
    ensures journal[key := a][key := b] == journal[key := b]
  {}

  /** One microbatch that is sent: five effects. */
  lemma SentMicrobatch(s: State, c: nat, a: Answer)
    requires Active(s, c) && s.calls[c].phase == Looking && KeyOf(s.calls[c]) !in s.journal
    ensures
      var call := s.calls[c];
      var t := Run(s, [Look(c), Replace, Send(c), Reply(c, a), Replace]);
      var u := Run(s, [Look(c), Replace, Send(c), Raise(c), Replace]);
      && t.put.None? && c in t.calls && t.calls[c] == call.(pos := call.pos + 1, merged := call.merged + a)
      && t.journal == s.journal[KeyOf(call) := Rec(Complete, call.batches[call.pos], Some(a))]
      && c !in u.calls && u.journal == s.journal[KeyOf(call) := Rec(Unknown, call.batches[call.pos], None)]
  {
    SentSteps(s, c);
    var t := Next(Next(Next(s, Look(c)), Replace), Send(c));
    AnsweredSteps(t, c, a);
    hide Next;
    RunFive(s, Look(c), Replace, Send(c), Reply(c, a), Replace);
    RunFive(s, Look(c), Replace, Send(c), Raise(c), Replace);
    var key := KeyOf(s.calls[c]);
    var req := s.calls[c].batches[s.calls[c].pos];
    Overwrite(s.journal, key, Rec(Running, req, None), Rec(Complete, req, Some(a)));
    Overwrite(s.journal, key, Rec(Running, req, None), Rec(Unknown, req, None));
  }

  /** A call about to look up a microbatch follows the script to the journal and the outcome of the loop. */
  ghost predicate Follows(s: State, c: nat, replies: seq<Sending>)
    requires c in s.calls && s.calls[c].pos <= |s.calls[c].batches| <= |replies|
  {
    var call := s.calls[c];
    var t := Run(s, Script(c, s.journal, call.id, call.batches, replies, call.pos));
    var (journal, outcome) := Resumed(s.journal, call.id, call.batches, replies, call.pos, call.merged);
    && t.journal == journal
    && (outcome.Returns? <==> c in t.calls)
    && (outcome.Returns? ==> t.calls[c].pos == |call.batches| && t.calls[c].merged == outcome.merged)
  }

  lemma FollowsLook(s: State, c: nat, replies: seq<Sending>)
    requires Active(s, c) && s.calls[c].phase == Looking && |s.calls[c].batches| <= |replies|
    requires KeyOf(s.calls[c]) in s.journal
    requires
      var call := s.calls[c];
      s.journal[KeyOf(call)].request == call.batches[call.pos] && Settled(s.journal, KeyOf(call)) ==>
        c in Next(s, Look(c)).calls && Next(s, Look(c)).calls[c].batches == call.batches
        && Next(s, Look(c)).calls[c].pos == call.pos + 1 && Follows(Next(s, Look(c)), c, replies)
    ensures Follows(s, c, replies)
  {
    var call := s.calls[c];
    RunFive(s, Look(c), Replace, Replace, Replace, Replace);
    hide Run;
    if s.journal[KeyOf(call)].request == call.batches[call.pos] && Settled(s.journal, KeyOf(call)) {
      RunAppend(s, [Look(c)], Script(c, s.journal, call.id, call.batches, replies, call.pos + 1));
    }
  }

  lemma FollowsSend(s: State, c: nat, replies: seq<Sending>, a: Answer)
    requires Active(s, c) && s.calls[c].phase == Looking && |s.calls[c].batches| <= |replies|
    requires KeyOf(s.calls[c]) !in s.journal && replies[s.calls[c].pos] == Responds(a)
    requires
      var t := Run(s, [Look(c), Replace, Send(c), Reply(c, a), Replace]);
      && c in t.calls && t.calls[c] == s.calls[c].(pos := s.calls[c].pos + 1, merged := s.calls[c].merged + a)
      && t.journal == s.journal[KeyOf(s.calls[c]) := Rec(Complete, s.calls[c].batches[s.calls[c].pos], Some(a))]
      && Follows(t, c, replies)
    ensures Follows(s, c, replies)
  {
    hide Run, Next;
    var call := s.calls[c];
    var five := [Look(c), Replace, Send(c), Reply(c, a), Replace];
    RunAppend(s, five, Script(c, Run(s, five).journal, call.id, call.batches, replies, call.pos + 1));
  }

  lemma FollowsThrow(s: State, c: nat, replies: seq<Sending>)
    requires Active(s, c) && s.calls[c].phase == Looking && |s.calls[c].batches| <= |replies|
    requires KeyOf(s.calls[c]) !in s.journal && replies[s.calls[c].pos] == Throws
    ensures Follows(s, c, replies)
  {
    SentMicrobatch(s, c, []);
    hide Run, Next;
  }

  /** The loop as coded takes exactly the steps of the protocol. */
  lemma {:induction false} LoopFollowsSteps(s: State, c: nat, replies: seq<Sending>)
    requires s.put.None? && c in s.calls && s.calls[c].phase == Looking
    requires s.calls[c].pos <= |s.calls[c].batches| <= |replies|
    ensures Follows(s, c, replies)
    decreases |s.calls[c].batches| - s.calls[c].pos
  {
    var call := s.calls[c];
    if call.pos >= |call.batches| {
    } else {
      hide Follows, Run;
      if KeyOf(call) in s.journal {
        if s.journal[KeyOf(call)].request == call.batches[call.pos] && Settled(s.journal, KeyOf(call)) {
          LoopFollowsSteps(Next(s, Look(c)), c, replies);
        }
        FollowsLook(s, c, replies);
      } else {
        hide Next;
        match replies[call.pos]
        case Throws => FollowsThrow(s, c, replies);
        case Responds(a) =>
          SentMicrobatch(s, c, a);
          LoopFollowsSteps(Run(s, [Look(c), Replace, Send(c), Reply(c, a), Replace]), c, replies);
          FollowsSend(s, c, replies, a);
      }
    }
  }
}
