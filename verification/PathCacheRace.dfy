/**
  A run that shows where a lookup can fall behind the feed: PathCacheFind
  samples the generation before it locks the bucket (src/PathCache.c:469-475),
  and a flush that runs in between leaves an entry it still accepts.
*/
module PathCacheRace {
  import opened Options
  import opened PathNames
  import opened PathCache

  ghost predicate RunTo(r: seq<State>, s: State) {
    Run(r) && r[|r| - 1] == s
  }

  lemma Extend(r: seq<State>, s: State, a: AgentId, s': State) returns (r': seq<State>)
    requires RunTo(r, s) && Next(s, a, s')
    ensures RunTo(r', s') && r' == r + [s']
  {
    r' := r + [s'];
    forall i | 0 <= i < |r'| - 1 ensures StepAt(r', i) {
      assert i < |r| - 1 ==> StepAt(r, i) && r'[i] == r[i] && r'[i + 1] == r[i + 1];
      assert i == |r| - 1 ==> r'[i] == s && r'[i + 1] == s' && Steps(s, s');
    }
  }

  /** What a flush leaves alone: the path lists, the other agents, the clock and the server. */
  ghost predicate Beside(s: State, s': State, a: AgentId) {
    && s'.hash == s.hash && s'.time == s.time && s'.log == s.log
    && (forall b | b in s.agents && b != a :: At(s', b, s.agents[b]))
    && (forall b | b in s'.agents && b != a :: b in s.agents)
    && (forall n: nat :: List(s', Slot(false, n)) == List(s, Slot(false, n)))
  }

  lemma BesideTrans(s: State, t: State, u: State, a: AgentId)
    requires Beside(s, t, a) && Beside(t, u, a)
    ensures Beside(s, u, a)
  {
    forall n: nat ensures List(u, Slot(false, n)) == List(s, Slot(false, n)) {
      assert List(t, Slot(false, n)) == List(s, Slot(false, n));
    }
    forall b | b in s.agents && b != a ensures At(u, b, s.agents[b]) { assert At(t, b, s.agents[b]); }
  }

  /** A full flush in its sweep of the listing buckets. */
  ghost predicate Flushing(s: State, a: AgentId, done: nat, target: nat, gen: nat) {
    && a in s.agents && s.agents[a] == Invalidating(InvalidateAll, s.lastAdvance, done, gen)
    && s.feed == Working(target, [InvalidateAll], [a], true)
    && s.generation == gen && s.answered == target
  }

  lemma {:induction false} SweepOut(r: seq<State>, s: State, a: AgentId, done: nat, target: nat) returns (r': seq<State>, s': State)
    requires RunTo(r, s) && 1 <= done <= BUCKETS + 1 && Flushing(s, a, done, target, s.generation)
    ensures RunTo(r', s') && Flushing(s', a, BUCKETS + 1, target, s.generation) && Beside(s, s', a) && s'.sequence == s.sequence
    decreases BUCKETS + 1 - done
  {
    if done == BUCKETS + 1 {
      r', s' := r, s;
    } else {
      var pc := s.agents[a];
      var sec := Sections(InvalidateAll)[done];
      assert sec == Sweep(true, done - 1, None);
      var slot := Slot(true, done - 1);
      var t := Relist(s, a, pc.(done := done + 1), slot, Keep(List(s, slot), (x: Item) => sec.dir.Some? && !IsUnder(sec.dir.value, x.key)));
      assert SweepSection(s, a, pc, t);
      var rt := Extend(r, s, a, t);
      r', s' := SweepOut(rt, t, a, done + 1, target);
      BesideTrans(s, t, s', a);
    }
  }

  /** The feed's thread takes a reset naming `target`, flushes, and is live. */
  lemma Flush(r: seq<State>, s: State, a: AgentId, target: nat) returns (r': seq<State>, s': State)
    requires RunTo(r, s) && s.feed == Idle && a !in s.agents && s.answered <= target <= |s.log|
    ensures RunTo(r', s') && Beside(s, s', a) && s'.feed == Idle && s'.live && s'.answered == target && s'.applied == target
    ensures s'.generation == s.generation + 1 && s'.flush == s.generation + 1
  {
    var s1 := s.(step := s.step + 1, answered := target, feed := Working(target, [InvalidateAll], [], true));
    assert Answer(s, target, true, [], s1);
    var r1 := Extend(r, s, a, s1);
    var m := Mark(s1.step + 1, s1.answered);
    var s2 := s1.(step := s1.step + 1, sequence := s1.sequence + 1, lastAdvance := m,
                  agents := s1.agents[a := Invalidating(InvalidateAll, m, 0, 0)], feed := Working(target, [InvalidateAll], [a], true));
    assert [] + [a] == [a];
    assert FeedBegins(s1, a, s2);
    var r2 := Extend(r1, s1, a, s2);
    var pc := s2.agents[a];
    assert Sections(InvalidateAll)[0] == Bump;
    var s3 := s2.(step := s2.step + 1, generation := s2.generation + 1, flushes := s2.flushes[s2.generation + 1 := m],
                  agents := s2.agents[a := Invalidating(InvalidateAll, m, 1, s2.generation + 1)]);
    assert SweepSection(s2, a, pc, s3);
    var r3 := Extend(r2, s2, a, s3);
    var r4, s4 := SweepOut(r3, s3, a, 1, target);
    s' := s4.(step := s4.step + 1, feed := Idle, applied := target, since := target, followed := true,
              live := true, flush := s4.agents[a].floor);
    assert Finished(s4, a);
    assert FeedFinishes(s4, s');
    r' := Extend(r4, s4, a, s');
    BesideTrans(s3, s4, s', a);
    BesideTrans(s, s3, s', a);
  }

  /** Agent `a` reads the server under a ticket. */
  lemma ReadFresh(r: seq<State>, s: State, a: AgentId) returns (r': seq<State>, s': State, t: Ticket)
    requires RunTo(r, s) && a !in s.agents && s.answered == |s.log|
    ensures RunTo(r', s') && t.sequence == s.sequence && t.issueTime == s.time
    ensures s' == s.(step := s'.step, agents := s.agents[a := HasRead(t, Data(|s.log|, s.time), true)])
  {
    var m := Mark(s.step + 1, s.answered);
    t := Ticket(s.sequence, s.time, m);
    var s1 := Move(s, a, Dating(s.sequence, m));
    assert ReadSequence(s, a, s1);
    var r1 := Extend(r, s, a, s1);
    var s2 := Move(s1, a, Ticketed(t));
    assert TakeTicket(s1, a, s1.agents[a], s2);
    var r2 := Extend(r1, s1, a, s2);
    s' := Move(s2, a, HasRead(t, Data(|s.log|, s.time), true));
    assert ReadServer(s2, a, t, |s.log|, true, s');
    r' := Extend(r2, s2, a, s');
    assert s'.agents == s.agents[a := HasRead(t, Data(|s.log|, s.time), true)];
  }

  /** What it read is cached: `key` exists. */
  lemma CacheIt(r: seq<State>, s: State, a: AgentId, t: Ticket, key: Key) returns (r': seq<State>, s': State, it: Item)
    requires RunTo(r, s) && At(s, a, HasRead(t, Data(|s.log|, s.time), true)) && t.sequence == s.sequence && key != []
    requires List(s, SlotOf(s.hash, false, key)) == []
    ensures RunTo(r', s') && s' == s.(step := s'.step, agents := s'.agents, lists := s'.lists) && s.agents.Keys == s'.agents.Keys
    ensures it == Item(false, key, true, s.generation, t, Data(|s.log|, s.time)) && List(s', SlotOf(s.hash, false, key)) == [it]
  {
    it := Item(false, key, true, s.generation, t, Data(|s.log|, s.time));
    var pc := Sampling(t, it.data, true, Want(false, key, true), s.time, None);
    var s1 := Move(s, a, pc);
    assert SampleClock(s, a, s.agents[a], pc.want, s1);
    var r1 := Extend(r, s, a, s1);
    var s2 := Move(s1, a, pc.(life := Some(Lifetime(s.live))));
    assert SampleLifetime(s1, a, pc, s2);
    var r2 := Extend(r1, s1, a, s2);
    var s3 := Move(s2, a, Preparing(it, true, s.time, Lifetime(s.live)));
    assert Prepare(s2, a, s2.agents[a], s3);
    var r3 := Extend(r2, s2, a, s3);
    var slot := SlotOf(s.hash, false, key);
    s' := Relist(s3, a, HasRead(t, Data(|s.log|, s.time), true), slot, [it]);
    var live := (x: Item) => Live(x, s.time, it.gen, Lifetime(s.live));
    assert Inserted([], it, live) == [it];
    assert Insert(s3, a, it, true, s.time, Lifetime(s.live), 0, true, s');
    r' := Extend(r3, s3, a, s');
  }

  ghost predicate FallsBehind(r: seq<State>, i: nat, a: AgentId, pc: Pc) {
    && Run(r) && i + 1 < |r| && Lookup(r[i], a, pc, r[i + 1]) && a in r[i + 1].agents && r[i + 1].agents[a].Hit?
    && r[i + 1].agents[a].it.found
    && Age(r[i + 1].agents[a].it.ticket.issueTime, pc.now) >= ShortLifetime(r[i + 1].agents[a].it)
    && !Reflects(r[i].log, r[i + 1].agents[a].it, r[i].applied)
  }

  /** A judged lookup, then a change, a reset and its flush, and only then the bucket. */
  lemma LookupAcrossFlush(r: seq<State>, s: State, a: AgentId, w: AgentId, it: Item) returns (r': seq<State>, pc: Pc)
    requires RunTo(r, s) && a !in s.agents && w !in s.agents && a != w && s.feed == Idle && s.live
    requires List(s, SlotOf(s.hash, false, it.key)) == [it] && it.key != [] && it.found && !it.listing && it.gen == s.generation
    requires it.ticket.issueTime + TTL <= s.time < it.ticket.issueTime + FEED_TTL
    requires it.data.seen == |s.log| && s.answered == |s.log|
    ensures |r'| >= 2 && FallsBehind(r', |r'| - 2, a, pc) && r'[|r'| - 2].hash == s.hash
  {
    var s1 := Move(s, a, Judging(false, it.key, s.time, true, s.flush));
    assert Judge(s, a, false, it.key, s.time, s1);
    var r1 := Extend(r, s, a, s1);
    pc := Looking(false, it.key, s.time, true, s.flush, s.generation, s.applied);
    var s2 := Move(s1, a, pc);
    assert ReadGeneration(s1, a, s1.agents[a], s2);
    var r2 := Extend(r1, s1, a, s2);
    var c := Change(true, it.key);
    var s3 := s2.(step := s2.step + 1, log := s2.log + [c]);
    assert ServerChanges(s2, c, s3);
    var r3 := Extend(r2, s2, a, s3);
    var r4, s4 := Flush(r3, s3, w, |s3.log|);
    var slot := SlotOf(s.hash, false, it.key);
    assert At(s4, a, s3.agents[a]);
    assert List(s4, Slot(false, slot.bucket)) == [it];
    assert FindFirst([it], it.key) == Some(it);
    var s5 := Move(s4, a, Hit(it, s.time, true, s.flush, s.generation, s.applied));
    assert Lookup(s4, a, pc, s5);
    r' := Extend(r4, s4, a, s5);
    assert s4.log[|s.log|] == c && Touches(c, it);
    assert !Reflects(s4.log, it, s4.applied);
  }

  /** Some run accepts, past the short lifetime, an entry that misses a change the feed has already acted on. */
  lemma LookupCanFallBehind(hash: Key -> nat) returns (r: seq<State>, i: nat, a: AgentId, pc: Pc)
    ensures FallsBehind(r, i, a, pc) && r[i].hash == hash
  {
    var s := State(hash, 0, 0, 0, 0, false, map[], map[], Idle, false, 0, [], 0, Mark(0, 0), map[], 0, 0);
    var key := [SEP, 'a'];
    var r1, s1 := Flush([s], s, 1, 0);
    assert List(s1, Slot(false, SlotOf(hash, false, key).bucket)) == [];
    var r0, s0, t := ReadFresh(r1, s1, 2);
    var r2, s2, it := CacheIt(r0, s0, 2, t, key);
    var s3 := s2.(step := s2.step + 1, time := s2.time + TTL);
    assert Tick(s2, TTL, s3);
    var r3 := Extend(r2, s2, 0, s3);
    r, pc := LookupAcrossFlush(r3, s3, 3, 4, it);
    i, a := |r| - 2, 3;
  }
}
