/** Packets of several tasks arrive interleaved. Before evaluation they are sorted into whole tasks; before
saving, all packets of a task are sent to one worker. */
module Packets {

  datatype TaskId = TaskId(job: int, task: int)

  /** `last` marks the last packet of a task. */
  datatype Packet = Packet(id: TaskId, last: bool, payload: int)

  // ---- Packets of one task -----------------------------------------------------------------

  /** The packets of task `id` among the first `k`. */
  function Of(s: seq<Packet>, id: TaskId, k: nat): seq<Packet>
    requires k <= |s|
  {
    if k == 0 then [] else Of(s, id, k - 1) + (if s[k - 1].id == id then [s[k - 1]] else [])
  }

  lemma {:induction false} OfFrame(a: seq<Packet>, b: seq<Packet>, id: TaskId, k: nat)
    requires k <= |a| && k <= |b| && forall i | 0 <= i < k :: a[i] == b[i]
    ensures Of(a, id, k) == Of(b, id, k)
  {
    if k > 0 { OfFrame(a, b, id, k - 1); }
  }

  lemma OfAppend(s: seq<Packet>, p: Packet, id: TaskId)
    ensures Of(s + [p], id, |s| + 1) == Of(s, id, |s|) + (if p.id == id then [p] else [])
  {
    OfFrame(s + [p], s, id, |s|);
  }

  lemma {:induction false} OfMembers(s: seq<Packet>, id: TaskId, k: nat, p: Packet)
    requires k <= |s|
    ensures p in Of(s, id, k) <==> p.id == id && p in s[..k]
  {
    if k > 0 {
      OfMembers(s, id, k - 1, p);
      assert s[..k] == s[..k - 1] + [s[k - 1]];
    }
  }

  /** Another packet of the same task follows. */
  ghost predicate Followed(input: seq<Packet>, i: int) {
    0 <= i < |input| && exists j | i < j < |input| :: input[j].id == input[i].id
  }

  /** Every task ends with its last packet. */
  ghost predicate Complete(input: seq<Packet>) {
    forall i {:trigger Followed(input, i)} | 0 <= i < |input| :: input[i].last <==> !Followed(input, i)
  }

  /** The packets of a task stand together. */
  ghost predicate Together(out: seq<Packet>) {
    forall i, j, k | 0 <= i < j < k < |out| && out[i].id == out[k].id :: out[j].id == out[i].id
  }

  // ---- Before evaluation -------------------------------------------------------------------

  datatype Option<T> = None | Some(value: T)

  function Waiting(queues: map<TaskId, seq<Packet>>, id: TaskId): Option<seq<Packet>> {
    if id in queues then Some(queues[id]) else None
  }

  function Contents(waiting: Option<seq<Packet>>): seq<Packet> {
    if waiting.Some? then waiting.value else []
  }

  /** A task of which the packets `got` were taken in: `sent` are out, `waiting` is its queue. It is either
  over, or waits, or is the active one. */
  ghost predicate Phase(got: seq<Packet>, waiting: Option<seq<Packet>>, sent: seq<Packet>, active: bool) {
    && sent + Contents(waiting) == got
    && (waiting == Some([]) ==> active)
    && (active ==> waiting.Some?)
    && (waiting.None? && sent != [] ==> sent[|sent| - 1].last)
    && (waiting.Some? ==> forall i | 0 <= i < |sent| :: !sent[i].last)
    && (waiting.Some? && sent != [] ==> active)
  }

  lemma PhaseTake(got: seq<Packet>, waiting: Option<seq<Packet>>, sent: seq<Packet>, active: bool, p: Packet)
    requires Phase(got, waiting, sent, active) && forall i | 0 <= i < |got| :: !got[i].last
    ensures Phase(got + [p], Some(Contents(waiting) + [p]), sent, active)
  {
    assert waiting.None? ==> sent + [] == sent;
  }

  lemma PhaseSend(got: seq<Packet>, queue: seq<Packet>, sent: seq<Packet>)
    requires Phase(got, Some(queue), sent, true) && queue != []
    requires queue[0].last ==> |queue| == 1
    ensures Phase(got, if queue[0].last then None else Some(queue[1..]), sent + [queue[0]], !queue[0].last)
  {
    assert queue == [queue[0]] + queue[1..];
    assert (sent + [queue[0]]) + queue[1..] == sent + queue;
  }

  /** Task `id` after the first `n` packets have been taken in. */
  ghost predicate TaskOk(input: seq<Packet>, n: nat, queues: map<TaskId, seq<Packet>>, active: Option<TaskId>,
                         out: seq<Packet>, id: TaskId)
    requires n <= |input|
  {
    Phase(Of(input, id, n), Waiting(queues, id), Of(out, id, |out|), active == Some(id))
  }

  ghost predicate AllTasksOk(input: seq<Packet>, n: nat, queues: map<TaskId, seq<Packet>>, active: Option<TaskId>,
                             out: seq<Packet>)
    requires n <= |input|
  {
    forall id {:trigger TaskOk(input, n, queues, active, out, id)} :: TaskOk(input, n, queues, active, out, id)
  }

  /** The packets sent out for the active task are the last ones. */
  ghost predicate ActiveAtEnd(active: Option<TaskId>, out: seq<Packet>) {
    active.Some? ==> forall i, j | 0 <= i < j < |out| && out[i].id == active.value :: out[j].id == active.value
  }

  lemma {:induction false} OfLast(s: seq<Packet>, id: TaskId, k: nat, i: nat) returns (q: nat)
    requires k <= |s| && i < |Of(s, id, k)|
    ensures q < k && s[q] == Of(s, id, k)[i] && s[q].id == id
    ensures i == |Of(s, id, k)| - 1 ==> forall j | q < j < k :: s[j].id != id
  {
    if i < |Of(s, id, k - 1)| {
      q := OfLast(s, id, k - 1, i);
    } else {
      q := k - 1;
    }
  }

  /** Nothing more arrives for a task whose last packet was seen. */
  lemma OverIsOver(input: seq<Packet>, n: nat, id: TaskId, i: nat)
    requires Complete(input) && n < |input| && i < |Of(input, id, n)| && Of(input, id, n)[i].last
    ensures input[n].id != id
  {
    var q := OfLast(input, id, n, i);
    assert !Followed(input, q);
  }

  /** Takes in packet `n`. */
  lemma TakeIn(input: seq<Packet>, n: nat, n': nat, queues: map<TaskId, seq<Packet>>, active: Option<TaskId>,
               out: seq<Packet>, queues': map<TaskId, seq<Packet>>)
    requires Complete(input) && n < |input| && n' == n + 1 && AllTasksOk(input, n, queues, active, out)
    requires queues' == queues[input[n].id := Contents(Waiting(queues, input[n].id)) + [input[n]]]
    ensures AllTasksOk(input, n', queues', active, out)
  {
    var p := input[n];
    forall i | 0 <= i < |Of(input, p.id, n)| ensures !Of(input, p.id, n)[i].last {
      if Of(input, p.id, n)[i].last { OverIsOver(input, n, p.id, i); }
    }
    assert TaskOk(input, n, queues, active, out, p.id);
    PhaseTake(Of(input, p.id, n), Waiting(queues, p.id), Of(out, p.id, |out|), active == Some(p.id), p);
    forall id ensures TaskOk(input, n', queues', active, out, id) { assert TaskOk(input, n, queues, active, out, id); }
  }

  /** Chooses a task to work on. */
  lemma Chosen(input: seq<Packet>, n: nat, queues: map<TaskId, seq<Packet>>, out: seq<Packet>, id: TaskId)
    requires n <= |input| && AllTasksOk(input, n, queues, None, out) && id in queues
    ensures AllTasksOk(input, n, queues, Some(id), out) && ActiveAtEnd(Some(id), out) && queues[id] != []
  {
    var active := Some(id);
    forall id' ensures TaskOk(input, n, queues, active, out, id') { assert TaskOk(input, n, queues, None, out, id'); }
    assert TaskOk(input, n, queues, None, out, id);
    forall i | 0 <= i < |out| ensures out[i].id != id {
      OfMembers(out, id, |out|, out[i]);
      assert out[..|out|] == out && out[i] in out;
    }
  }

  /** A packet marked as the last one has none of its task behind it. */
  lemma LastIsLast(input: seq<Packet>, n: nat, id: TaskId, i: nat)
    requires Complete(input) && n <= |input| && i < |Of(input, id, n)| && Of(input, id, n)[i].last
    ensures i == |Of(input, id, n)| - 1
  {
    var k := |Of(input, id, n)| - 1;
    PositionsAscend(input, id, n, i, k);
  }

  /** Later packets of a task stand later in the input. */
  lemma {:induction false} PositionsAscend(input: seq<Packet>, id: TaskId, n: nat, i: nat, k: nat)
    requires Complete(input) && n <= |input| && i <= k < |Of(input, id, n)|
    ensures i < k ==> !Of(input, id, n)[i].last
  {
    if i < k {
      if k < |Of(input, id, n - 1)| {
        PositionsAscend(input, id, n - 1, i, k);
      } else {
        var q := OfLast(input, id, n - 1, i);
        assert input[n - 1].id == input[q].id;
        assert Followed(input, q);
      }
    }
  }

  /** Sends out the first waiting packet of the active task. */
  lemma SendOut(input: seq<Packet>, n: nat, queues: map<TaskId, seq<Packet>>, a: TaskId, out: seq<Packet>, p: Packet,
                queues': map<TaskId, seq<Packet>>, active': Option<TaskId>, out': seq<Packet>)
    requires Complete(input) && n <= |input| && AllTasksOk(input, n, queues, Some(a), out) && a in queues &&
             queues[a] != [] && p == queues[a][0]
    requires out' == out + [p] && queues' == (if p.last then queues - {a} else queues[a := queues[a][1..]])
    requires active' == if p.last then None else Some(a)
    ensures p.id == a && AllTasksOk(input, n, queues', active', out')
  {
    assert TaskOk(input, n, queues, Some(a), out, a);
    var sent, got := Of(out, a, |out|), Of(input, a, n);
    assert got[|sent|] == p;
    OfMembers(input, a, n, p);
    if p.last { LastIsLast(input, n, a, |sent|); }
    PhaseSend(got, queues[a], sent);
    forall id ensures TaskOk(input, n, queues', active', out', id) {
      assert TaskOk(input, n, queues, Some(a), out, id);
      OfAppend(out, p, id);
    }
  }

  lemma StaysTogether(active: Option<TaskId>, out: seq<Packet>, p: Packet)
    requires Together(out) && active == Some(p.id) && ActiveAtEnd(active, out)
    ensures Together(out + [p]) && ActiveAtEnd(active, out + [p])
  {
  }

  /** A task that was begun is not complete while it is active. */
  lemma ActiveUnfinished(input: seq<Packet>, queues: map<TaskId, seq<Packet>>, a: TaskId, out: seq<Packet>)
    requires Complete(input) && AllTasksOk(input, |input|, queues, Some(a), out) && Of(out, a, |out|) != []
    ensures a in queues && queues[a] != []
  {
    assert TaskOk(input, |input|, queues, Some(a), out, a);
    var sent := Of(out, a, |out|);
    var all := Of(input, a, |input|);
    var q := OfLast(input, a, |input|, |all| - 1);
    assert !Followed(input, q);
    assert all[|all| - 1].last;
    assert queues[a] == [] ==> all == sent;
  }

  /** Between two rounds. */
  ghost predicate Driving(input: seq<Packet>, n: nat, queues: map<TaskId, seq<Packet>>, active: Option<TaskId>,
                          out: seq<Packet>) {
    && n <= |input| && AllTasksOk(input, n, queues, active, out) && Together(out) && ActiveAtEnd(active, out)
    && (active.Some? ==> active.value in queues && Of(out, active.value, |out|) != [])
  }

  /** Takes in a packet if there is no work at all, or none for the active task. */
  method TakePacket(input: seq<Packet>, n: nat, queues: map<TaskId, seq<Packet>>, active: Option<TaskId>,
                    ghost out: seq<Packet>)
    returns (queues': map<TaskId, seq<Packet>>)
    requires Complete(input) && n < |input| && Driving(input, n, queues, active, out)
    ensures Driving(input, n + 1, queues', active, out) && queues' != map[]
  {
    var p := input[n];
    queues' := queues[p.id := Contents(Waiting(queues, p.id)) + [p]];
    TakeIn(input, n, n + 1, queues, active, out, queues');
    assert p.id in queues';
  }

  /** Sends out the first packet that waits for the active task. */
  method SendPacket(queues: map<TaskId, seq<Packet>>, a: TaskId, out: seq<Packet>, ghost input: seq<Packet>,
                    ghost n: nat)
    returns (queues': map<TaskId, seq<Packet>>, active': Option<TaskId>, out': seq<Packet>)
    requires Complete(input) && n <= |input| && AllTasksOk(input, n, queues, Some(a), out) && Together(out)
    requires ActiveAtEnd(Some(a), out) && a in queues && queues[a] != []
    ensures Driving(input, n, queues', active', out')
    ensures active'.None? ==> |queues'| < |queues|
    ensures active'.Some? ==>
              active'.value == a && queues'[a] == queues[a][1..] && queues' == queues[a := queues[a][1..]]
  {
    var p := queues[a][0];
    queues' := if p.last then queues - {a} else queues[a := queues[a][1..]];
    out' := out + [p];
    active' := if p.last then None else Some(a);
    SendOut(input, n, queues, a, out, p, queues', active', out');
    StaysTogether(Some(a), out, p);
    OfAppend(out, p, a);
  }

  /** At the end every packet has come out. */
  lemma AllOut(input: seq<Packet>, queues: map<TaskId, seq<Packet>>, active: Option<TaskId>, out: seq<Packet>)
    requires Complete(input) && Driving(input, |input|, queues, active, out)
    requires queues == map[] || (active.Some? && queues[active.value] == [])
    ensures forall id :: Of(out, id, |out|) == Of(input, id, |input|)
  {
    if active.Some? { ActiveUnfinished(input, queues, active.value, out); }
    forall id ensures Of(out, id, |out|) == Of(input, id, |input|) {
      assert TaskOk(input, |input|, queues, active, out, id);
    }
  }

  /** `pre_evaluate_driver`: for any interleaving, the packets of each task come out together, in their
  order, and all of them. */
  method Drive(input: seq<Packet>) returns (out: seq<Packet>)
    requires Complete(input)
    ensures Together(out) && forall id :: Of(out, id, |out|) == Of(input, id, |input|)
  {
    var queues: map<TaskId, seq<Packet>>, active: Option<TaskId>, n := map[], None, 0;
    out := [];
    while true
      invariant Driving(input, n, queues, active, out)
      decreases |input| - n, |queues|, active.None?,
                if active.Some? then |Contents(Waiting(queues, active.value))| else 0
    {
      if queues == map[] || (active.Some? && queues[active.value] == []) {
        if n == |input| {
          AllOut(input, queues, active, out);
          break;
        }
        queues := TakePacket(input, n, queues, active, out);
        n := n + 1;
      }
      if active.None? {
        var id :| id in queues;
        Chosen(input, n, queues, out, id);
        queues, active, out := SendPacket(queues, id, out, input, n);
      } else if queues[active.value] != [] {
        queues, active, out := SendPacket(queues, active.value, out, input, n);
      }
    }
  }

  // ---- Before saving -----------------------------------------------------------------------

  /** Worker `w` has got the packets of task `id` if that is the task's worker, and none of it otherwise. */
  ghost predicate SentTo(input: seq<Packet>, n: nat, home: map<TaskId, nat>, queues: seq<seq<Packet>>, w: nat,
                         id: TaskId)
    requires n <= |input| && w < |queues|
  {
    Of(queues[w], id, |queues[w]|) == if id in home && home[id] == w then Of(input, id, n) else []
  }

  /** Tasks without a worker have no packets yet, and tasks whose worker was forgotten are over. */
  ghost predicate HomeOk(input: seq<Packet>, n: nat, home: map<TaskId, nat>, chosen: map<TaskId, nat>, id: TaskId)
    requires n <= |input|
  {
    && (id !in home ==> Of(input, id, n) == [])
    && (id in chosen ==> id in home && home[id] == chosen[id])
    && (id in home && id !in chosen ==> Of(input, id, n) != [] && Of(input, id, n)[|Of(input, id, n)| - 1].last)
  }

  ghost predicate Distributed(input: seq<Packet>, n: nat, home: map<TaskId, nat>, chosen: map<TaskId, nat>,
                              queues: seq<seq<Packet>>)
    requires n <= |input|
  {
    && (forall id {:trigger HomeOk(input, n, home, chosen, id)} :: HomeOk(input, n, home, chosen, id))
    && (forall w, id {:trigger SentTo(input, n, home, queues, w, id)} | 0 <= w < |queues| ::
        SentTo(input, n, home, queues, w, id))
    && (forall id | id in home :: home[id] < |queues|)
  }

  lemma DistributeOne(input: seq<Packet>, n: nat, n': nat, home: map<TaskId, nat>, chosen: map<TaskId, nat>,
                      queues: seq<seq<Packet>>, w: nat,
                      home': map<TaskId, nat>, chosen': map<TaskId, nat>, queues': seq<seq<Packet>>)
    requires Complete(input) && n < |input| && n' == n + 1 && Distributed(input, n, home, chosen, queues) &&
             w < |queues|
    requires input[n].id in chosen ==> w == chosen[input[n].id]
    requires home' == home[input[n].id := w] && queues' == queues[w := queues[w] + [input[n]]]
    requires chosen' == (if input[n].last then chosen - {input[n].id} else chosen[input[n].id := w])
    ensures Distributed(input, n', home', chosen', queues')
  {
    var p := input[n];
    assert HomeOk(input, n, home, chosen, p.id);
    if p.id in home && p.id !in chosen { OverIsOver(input, n, p.id, |Of(input, p.id, n)| - 1); }
    forall id ensures HomeOk(input, n', home', chosen', id) { assert HomeOk(input, n, home, chosen, id); }
    forall v, id | 0 <= v < |queues'| ensures SentTo(input, n', home', queues', v, id) {
      assert SentTo(input, n, home, queues, v, id) && HomeOk(input, n, home, chosen, id);
      if v == w { OfAppend(queues[w], p, id); }
    }
  }

  /** `save_coordinator`: all packets of a task go to one save worker, in their order. */
  method Distribute(input: seq<Packet>, workers: nat) returns (queues: seq<seq<Packet>>, ghost home: map<TaskId, nat>)
    requires Complete(input) && workers > 0
    ensures |queues| == workers && forall id | id in home :: home[id] < workers
    ensures forall id :: (id in home <==> Of(input, id, |input|) != [])
    ensures forall id, w | 0 <= w < workers ::
              Of(queues[w], id, |queues[w]|) == if id in home && home[id] == w then Of(input, id, |input|) else []
  {
    queues := seq(workers, _ => []);
    home := map[];
    var chosen: map<TaskId, nat>, next := map[], 0;
    for n := 0 to |input|
      invariant |queues| == workers && Distributed(input, n, home, chosen, queues)
      invariant forall id | id in home :: Of(input, id, n) != []
      invariant 0 <= next
    {
      var p := input[n];
      assert HomeOk(input, n, home, chosen, p.id);
      var w := next % workers;
      if p.id in chosen {
        w := chosen[p.id];
      } else {
        next := next + 1;
      }
      ghost var before, beforeHome, beforeQueues := chosen, home, queues;
      queues := queues[w := queues[w] + [p]];
      chosen := if p.last then chosen - {p.id} else chosen[p.id := w];
      home := home[p.id := w];
      DistributeOne(input, n, n + 1, beforeHome, before, beforeQueues, w, home, chosen, queues);
    }
    forall id ensures id in home <==> Of(input, id, |input|) != [] { assert HomeOk(input, |input|, home, chosen, id); }
    forall id, w | 0 <= w < workers
      ensures Of(queues[w], id, |queues[w]|) == if id in home && home[id] == w then Of(input, id, |input|) else []
    {
      assert SentTo(input, |input|, home, queues, w, id);
    }
  }
}
