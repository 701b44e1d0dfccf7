/** The tap ring: 21 slots, a machine-sized head counter that wraps, and readers
    that notice when they have been overtaken. It stands for an unbounded log. */
module TapRing {
  import opened Choreography

  /** Resident bytes over the length of one record. */
  const SLOTS := 256 / 12
  const U32_MAX := 4294967295

  function Pow2(w: nat): (p: nat)
    ensures p >= 1
  {
    if w == 0 then 1 else 2 * Pow2(w - 1)
  }

  // ------------------------------------------------------------------ remainders

  function Rem(a: nat, m: nat): (r: nat)
    requires m > 0
    ensures r < m
  {
    if a < m then a else Rem(a - m, m)
  }

  /** Wrapping addition of one and wrapping subtraction. */
  function Bump(a: nat, m: nat): nat { if a + 1 == m then 0 else a + 1 }

  function WrapSub(a: nat, b: nat, m: nat): int { if a >= b then a - b else a + m - b }

  lemma {:induction false} RemNext(a: nat, m: nat)
    requires m > 0
    ensures Rem(a + 1, m) == Bump(Rem(a, m), m)
  {
    if a >= m { RemNext(a - m, m); } else if a + 1 == m { assert Rem(0, m) == 0; }
  }

  lemma {:induction false} RemSub(h: nat, p: nat, m: nat)
    requires m > 0 && p <= h
    ensures WrapSub(Rem(h, m), Rem(p, m), m) == Rem(h - p, m)
    decreases h
  {
    if h >= m {
      if p >= m { RemSub(h - m, p - m, m); }
      else if h - m >= p { RemSub(h - m, p, m); }
    }
  }

  lemma {:induction false} RemAdd(p: nat, x: nat, m: nat)
    requires m > 0
    ensures Rem(p + x, m) == Rem(p, m) <==> Rem(x, m) == 0
  {
    RemSub(p + x, p, m);
  }

  lemma {:induction false} RemSmall(a: nat, m: nat)
    requires m > 0
    ensures a < m ==> Rem(a, m) == a
    ensures a == m ==> Rem(a, m) == 0
  {
  }

  /** No power of two is a multiple of the number of slots. */
  lemma {:induction false} PowersMissSlots(w: nat)
    ensures Rem(Pow2(w), SLOTS) != 0
  {
    var q := PowersMissThree(w);
    if Rem(Pow2(w), SLOTS) == 0 { var t := MultipleOfThree(Pow2(w)); }
  }

  lemma {:induction false} PowersMissThree(w: nat) returns (q: nat)
    ensures Pow2(w) == 3 * q + 1 || Pow2(w) == 3 * q + 2
  {
    q := 0;
    if w > 0 {
      var t := PowersMissThree(w - 1);
      q := if Pow2(w - 1) == 3 * t + 1 then 2 * t else 2 * t + 1;
    }
  }

  lemma {:induction false} MultipleOfThree(a: nat) returns (q: nat)
    requires Rem(a, SLOTS) == 0
    ensures a == 3 * q
  {
    q := 0;
    if a >= SLOTS {
      var t := MultipleOfThree(a - SLOTS);
      q := t + 7;
    }
  }

  /** The counter is at its end exactly when the next step starts over. */
  lemma {:induction false} WrapsAt(a: nat, m: nat)
    requires m > 0
    ensures (a >= m || Rem(a, m) == m - 1) <==> a + 1 >= m
  {
  }

  // --------------------------------------------------------------- specification

  function Resident(h: nat): nat { if h < SLOTS then h else SLOTS }

  function Oldest(h: nat): nat { h - Resident(h) }

  /** The slots after a log has been written through the ring. */
  function Slots(events: seq<nat>): (s: seq<nat>)
    ensures |s| == SLOTS
  {
    if events == [] then seq(SLOTS, _ => 0)
    else Slots(events[..|events| - 1])[Rem(|events| - 1, SLOTS) := events[|events| - 1]]
  }

  lemma SlotsPush(events: seq<nat>, e: nat)
    ensures Slots(events + [e]) == Slots(events)[Rem(|events|, SLOTS) := e]
  {
    assert (events + [e])[..|events|] == events;
  }

  lemma {:induction false} SlotsHold(events: seq<nat>, j: nat)
    requires Oldest(|events|) <= j < |events|
    ensures Slots(events)[Rem(j, SLOTS)] == events[j]
  {
    var n := |events| - 1;
    if j < n {
      SlotsHold(events[..n], j);
      RemAdd(j, n - j, SLOTS);
      RemSmall(n - j, SLOTS);
    }
  }

  /** A reader at log position `p` resets when it looks overtaken. */
  predicate Resets(h: nat, p: nat, word: nat)
    requires p <= h && word > 0
  {
    var distance := Rem(h - p, word);
    distance > Resident(h) || (distance == 0 && Rem(p, SLOTS) != Rem(h, SLOTS))
  }

  function Normal(h: nat, p: nat, word: nat): nat
    requires p <= h && word > 0
  {
    if Resets(h, p, word) then Oldest(h) else p
  }

  function Stamp(cursor: nat, wrapped: bool): nat {
    if wrapped || cursor > U32_MAX then U32_MAX else cursor
  }

  function Max(a: nat, b: nat): nat { if a < b then b else a }

  function Min(a: nat, b: nat): nat { if a < b then a else b }

  // -------------------------------------------------------------- the ring itself

  class RingBuffer {
    const word: nat
    const storage: array<nat>
    var head: nat
    var writeIndex: nat
    var residentLen: nat
    var wrapped: bool
    ghost var log: seq<nat>

    ghost predicate Valid()
      reads this, storage
    {
      && word > SLOTS && storage.Length == SLOTS
      && head == Rem(|log|, word)
      && writeIndex == Rem(|log|, SLOTS)
      && residentLen == Resident(|log|)
      && (wrapped <==> |log| >= word)
      && storage[..] == Slots(log)
    }

    constructor (word: nat)
      requires word > SLOTS
      ensures Valid() && this.word == word && log == [] && fresh(storage)
    {
      this.word := word;
      storage := new nat[SLOTS](_ => 0);
      head, writeIndex, residentLen, wrapped, log := 0, 0, 0, false, [];
    }

    method Push(event: nat)
      requires Valid()
      modifies this, storage
      ensures Valid() && log == old(log) + [event]
    {
      hide Slots;
      hide Rem;
      RemNext(|log|, word);
      RemNext(|log|, SLOTS);
      WrapsAt(|log|, word);
      SlotsPush(log, event);
      storage[writeIndex] := event;
      writeIndex := Bump(writeIndex, SLOTS);
      residentLen := if residentLen == SLOTS then residentLen else residentLen + 1;
      wrapped := wrapped || head == word - 1;
      head := Bump(head, word);
      log := log + [event];
    }

    /** The slot of the oldest resident record. */
    method OldestIndex() returns (i: nat)
      requires Valid()
      ensures i == Rem(Oldest(|log|), SLOTS)
    {
      i := writeIndex + SLOTS - residentLen;
      if i >= SLOTS { i := i - SLOTS; }
      RemSmall(|log|, SLOTS);
      RemSmall(0, SLOTS);
      assert |log| >= SLOTS ==> Rem(|log|, SLOTS) == Rem(|log| - SLOTS, SLOTS);
    }

    /** The next ordinal of the producer, while it fits. */
    method Checkpoint() returns (ordinal: Option<nat>)
      requires Valid()
      ensures ordinal == if |log| < word && |log| < U32_MAX then Some(|log|) else None
    {
      RemSmall(|log|, word);
      var stamp := Stamp(head, wrapped);
      ordinal := if stamp != U32_MAX then Some(stamp) else None;
    }
  }

  /** A reader. `pos` is the log position its cursor and index stand for. */
  class RingPort {
    const ring: RingBuffer
    var cursor: nat
    var index: nat
    ghost var pos: nat

    ghost predicate Valid()
      reads this, ring, ring.storage
    {
      ring.Valid() && pos <= |ring.log| && cursor == Rem(pos, ring.word) && index == Rem(pos, SLOTS)
    }

    constructor (ring: RingBuffer)
      requires ring.Valid()
      ensures Valid() && this.ring == ring && pos == Oldest(|ring.log|)
    {
      this.ring := ring;
      var i := ring.OldestIndex();
      RemSub(|ring.log|, Resident(|ring.log|), ring.word);
      RemSmall(Resident(|ring.log|), ring.word);
      cursor := WrapSub(ring.head, ring.residentLen, ring.word);
      index := i;
      pos := Oldest(|ring.log|);
    }

    method NormalizeCursor()
      requires Valid()
      modifies this
      ensures Valid() && pos == Normal(|ring.log|, old(pos), ring.word)
    {
      hide Slots;
      hide Rem;
      RemSub(|ring.log|, pos, ring.word);
      RemSub(|ring.log|, Resident(|ring.log|), ring.word);
      RemSmall(Resident(|ring.log|), ring.word);
      var distance := WrapSub(ring.head, cursor, ring.word);
      if distance > ring.residentLen || (distance == 0 && index != ring.writeIndex) {
        cursor := WrapSub(ring.head, ring.residentLen, ring.word);
        index := ring.OldestIndex();
        pos := Oldest(|ring.log|);
      }
    }

    /** The record at the reader's position, with its ordinal, and one step on. */
    method Next() returns (event: Option<(nat, nat)>)
      requires Valid()
      modifies this
      ensures ring.Valid() && ring.log == old(ring.log)
      ensures var h, p := |ring.log|, Normal(|ring.log|, old(pos), ring.word);
        if Rem(p, ring.word) == Rem(h, ring.word) then event == None && pos == p && Valid()
        else event == Some((Slots(ring.log)[Rem(p, SLOTS)], Stamp(Rem(p, ring.word), h >= ring.word))) && pos == p + 1 && Valid()
    {
      hide Slots;
      hide Rem;
      hide Normal;
      NormalizeCursor();
      if cursor == ring.head { return None; }
      event := Some((ring.storage[index], Stamp(cursor, ring.wrapped)));
      assert ring.storage[index] == ring.storage[..][index];
      RemNext(pos, ring.word);
      RemNext(pos, SLOTS);
      cursor := Bump(cursor, ring.word);
      index := Bump(index, SLOTS);
      pos := pos + 1;
    }
  }

  // -------------------------------------------------------------------- readers

  /** Exactly when a reader is put in its place: it goes to the oldest resident
      record if it was overtaken, and stays otherwise. */
  lemma {:induction false} NormalExact(h: nat, p: nat, word: nat)
    requires p <= h && word > SLOTS
    ensures Normal(h, p, word) == Max(p, Oldest(h)) <==>
      h - p <= Resident(h) || Rem(h - p, word) > Resident(h) || (Rem(h - p, word) == 0 && Rem(h - p, SLOTS) != 0)
  {
    RemSmall(h - p, word);
    RemAdd(p, h - p, SLOTS);
  }

  /** A lag of at most one wrap of the counter is always recognised; at exactly one
      wrap only the slot index tells, because the counter's range is no multiple
      of the ring. */
  lemma {:induction false} OneWrapIsCaught(h: nat, p: nat, w: nat)
    requires p <= h && Pow2(w) > SLOTS && h - p <= Pow2(w)
    ensures Normal(h, p, Pow2(w)) == Max(p, Oldest(h))
    ensures var q := Normal(h, p, Pow2(w)); Rem(q, Pow2(w)) == Rem(h, Pow2(w)) <==> q == h
  {
    var word := Pow2(w);
    NormalExact(h, p, word);
    RemSmall(h - p, word);
    PowersMissSlots(w);
    var q := Max(p, Oldest(h));
    RemAdd(q, h - q, word);
    RemSmall(h - q, word);
  }

  /** A longer lag can go unnoticed: one wrap and one record. */
  lemma LongLagMissed(w: nat)
    requires Pow2(w) > SLOTS
    ensures var word := Pow2(w); Normal(word + 1, 0, word) == 0 && Oldest(word + 1) > 0
  {
    var word := Pow2(w);
    assert Rem(word + 1, word) == Rem(1, word) == 1;
  }

  /** The ordinal shown is the true one exactly while the counter has not wrapped,
      or when the true one no longer fits anyway. */
  lemma {:induction false} StampExact(h: nat, p: nat, word: nat)
    requires Oldest(h) <= p <= h && word > SLOTS
    ensures Stamp(Rem(p, word), h >= word) == Min(p, U32_MAX) <==> h < word || p >= U32_MAX
  {
    RemSmall(p, word);
  }

  /** With a counter wider than the ordinal it is always the true one. */
  lemma {:induction false} WideStampRight(h: nat, p: nat, word: nat)
    requires Oldest(h) <= p <= h && word >= U32_MAX + SLOTS
    ensures Stamp(Rem(p, word), h >= word) == Min(p, U32_MAX)
  {
    StampExact(h, p, word);
  }

  /** With a counter just as wide as the ordinal it is wrong once the counter wraps:
      the oldest resident record then shows the end of the ordinals. */
  lemma NarrowStampWrong()
    ensures var word := U32_MAX + 1; var h, p := word, word - SLOTS;
      Oldest(h) == p < U32_MAX && Stamp(Rem(p, word), h >= word) == U32_MAX
  {
  }

  // ------------------------------------------------------------------------ runs

  datatype Act = Push(event: nat) | Read

  /** What a reader has yielded: position, value and ordinal, and the head at that
      time. */
  datatype Yield = Yield(at: nat, value: nat, ordinal: nat, head: nat)

  datatype Session = Session(log: seq<nat>, pos: nat, out: seq<Yield>)

  function After(s: Session, act: Act, word: nat): Session
    requires word > 0 && s.pos <= |s.log|
  {
    match act
    case Push(e) => s.(log := s.log + [e])
    case Read =>
      var h, p := |s.log|, Normal(|s.log|, s.pos, word);
      if Rem(p, word) == Rem(h, word) then s.(pos := p)
      else Session(s.log, if p < h then p + 1 else p, s.out + [Yield(p, Slots(s.log)[Rem(p, SLOTS)], Stamp(Rem(p, word), h >= word), h)])
  }

  /** At every read of the run the reader lags by at most one wrap. */
  ghost predicate Timely(s: Session, acts: seq<Act>, word: nat)
    requires word > 0 && s.pos <= |s.log|
    decreases |acts|
  {
    acts == [] ||
    ((acts[0].Read? ==> |s.log| - s.pos <= word) && Timely(After(s, acts[0], word), acts[1..], word))
  }

  function Run(s: Session, acts: seq<Act>, word: nat): (r: Session)
    requires word > 0 && s.pos <= |s.log|
    ensures r.pos <= |r.log|
    decreases |acts|
  {
    if acts == [] then s else Run(After(s, acts[0], word), acts[1..], word)
  }

  /** A yield is the log's own entry, resident when it was read, and its ordinal is
      right exactly before the counter has wrapped or once it no longer fits. */
  ghost predicate Genuine(y: Yield, log: seq<nat>, word: nat) {
    && Oldest(y.head) <= y.at < y.head <= |log|
    && y.value == log[y.at]
    && (y.ordinal == Min(y.at, U32_MAX) <==> y.head < word || y.at >= U32_MAX)
  }

  /** Everything yielded is genuine; each position is the one after the last, or the
      oldest record still resident when that one was overwritten. */
  ghost predicate Faithful(s: Session, from: nat, word: nat) {
    && (forall i :: 0 <= i < |s.out| ==> Genuine(s.out[i], s.log, word))
    && (forall i :: 0 <= i < |s.out| ==> s.out[i].at == Max(if i == 0 then from else s.out[i - 1].at + 1, Oldest(s.out[i].head)))
    && s.pos >= (if s.out == [] then from else s.out[|s.out| - 1].at + 1)
    && s.pos <= Max(if s.out == [] then from else s.out[|s.out| - 1].at + 1, Oldest(|s.log|))
  }

  lemma {:induction false} OldestGrows(a: nat, b: nat)
    requires a <= b
    ensures Oldest(a) <= Oldest(b)
  {
  }

  lemma {:induction false} StepFaithful(s: Session, act: Act, w: nat, from: nat)
    requires Pow2(w) > SLOTS && s.pos <= |s.log| && Faithful(s, from, Pow2(w)) && (act.Read? ==> |s.log| - s.pos <= Pow2(w))
    ensures Faithful(After(s, act, Pow2(w)), from, Pow2(w))
  {
    match act
    case Push(e) => PushFaithful(s, e, from, Pow2(w));
    case Read => ReadFaithful(s, w, from);
  }

  lemma {:induction false} PushFaithful(s: Session, e: nat, from: nat, word: nat)
    requires s.pos <= |s.log| && Faithful(s, from, word)
    ensures Faithful(s.(log := s.log + [e]), from, word)
  {
    OldestGrows(|s.log|, |s.log| + 1);
    hide Genuine;
    hide Oldest;
    var n := s.(log := s.log + [e]);
    forall i | 0 <= i < |n.out| ensures Genuine(n.out[i], n.log, word) { GenuineGrows(s.out[i], s.log, e, word); }
  }

  lemma GenuineGrows(y: Yield, log: seq<nat>, e: nat, word: nat)
    requires Genuine(y, log, word)
    ensures Genuine(y, log + [e], word)
  {
  }

  function Expected(out: seq<Yield>, from: nat): nat { if out == [] then from else out[|out| - 1].at + 1 }

  lemma {:induction false} YieldFaithful(s: Session, y: Yield, from: nat, word: nat)
    requires Faithful(s, from, word) && Genuine(y, s.log, word) && y.head == |s.log| && y.at == Max(Expected(s.out, from), Oldest(y.head))
    ensures Faithful(Session(s.log, y.at + 1, s.out + [y]), from, word)
  {
    hide Genuine;
    hide Oldest;
    var n := Session(s.log, y.at + 1, s.out + [y]);
    forall i | 0 <= i < |n.out| ensures Genuine(n.out[i], n.log, word) { assert n.out[i] == if i < |s.out| then s.out[i] else y; }
    forall i | 0 <= i < |n.out| ensures n.out[i].at == Max(if i == 0 then from else n.out[i - 1].at + 1, Oldest(n.out[i].head)) {
      if i < |s.out| { assert n.out[i] == s.out[i]; }
    }
  }

  lemma {:induction false} ReadFaithful(s: Session, w: nat, from: nat)
    requires Pow2(w) > SLOTS && s.pos <= |s.log| && Faithful(s, from, Pow2(w)) && |s.log| - s.pos <= Pow2(w)
    ensures Faithful(After(s, Read, Pow2(w)), from, Pow2(w))
  {
    hide Slots;
    hide Rem;
    hide Normal;
    hide Pow2;
    hide Stamp;
    assert Oldest(|s.log|) <= |s.log|;
    hide Oldest;
    var h, p := |s.log|, Normal(|s.log|, s.pos, Pow2(w));
    OneWrapIsCaught(h, s.pos, w);
    if p < h {
      SlotsHold(s.log, p);
      StampExact(h, p, Pow2(w));
      var y := Yield(p, Slots(s.log)[Rem(p, SLOTS)], Stamp(Rem(p, Pow2(w)), h >= Pow2(w)), h);
      assert Genuine(y, s.log, Pow2(w));
      YieldFaithful(s, y, from, Pow2(w));
    }
  }

  lemma {:induction false} RunFaithful(s: Session, acts: seq<Act>, w: nat, from: nat)
    requires Pow2(w) > SLOTS && s.pos <= |s.log| && Faithful(s, from, Pow2(w)) && Timely(s, acts, Pow2(w))
    ensures Faithful(Run(s, acts, Pow2(w)), from, Pow2(w))
    decreases |acts|
  {
    hide Faithful;
    if acts != [] {
      StepFaithful(s, acts[0], w, from);
      RunFaithful(After(s, acts[0], Pow2(w)), acts[1..], w, from);
    }
  }

  /** The ring refines the log: over any interleaving of pushes and reads in which
      the reader never lags by more than one wrap of the counter, it yields log
      entries in order, skips exactly those overwritten when it read, and shows the
      right ordinal exactly before the counter has wrapped or once it no longer
      fits; with a wide counter, always. */
  lemma {:induction false} ReaderRefinesLog(events: seq<nat>, acts: seq<Act>, w: nat)
    requires Pow2(w) > SLOTS && Timely(Session(events, Oldest(|events|), []), acts, Pow2(w))
    ensures var r := Run(Session(events, Oldest(|events|), []), acts, Pow2(w));
      && (forall i :: 0 <= i < |r.out| ==> Genuine(r.out[i], r.log, Pow2(w)))
      && (forall i :: 0 <= i < |r.out| ==>
            r.out[i].at == Max(if i == 0 then Oldest(|events|) else r.out[i - 1].at + 1, Oldest(r.out[i].head)))
      && (forall i, j :: 0 <= i < j < |r.out| ==> r.out[i].at < r.out[j].at)
      && (Pow2(w) >= U32_MAX + SLOTS ==> forall i :: 0 <= i < |r.out| ==> r.out[i].ordinal == Min(r.out[i].at, U32_MAX))
  {
    var s := Session(events, Oldest(|events|), []);
    RunFaithful(s, acts, w, Oldest(|events|));
    var r := Run(s, acts, Pow2(w));
    hide Run;
    hide Timely;
    forall i, j | 0 <= i < j < |r.out| ensures r.out[i].at < r.out[j].at { Later(r, Oldest(|events|), Pow2(w), i, j); }
    if Pow2(w) >= U32_MAX + SLOTS {
      forall i | 0 <= i < |r.out| ensures r.out[i].ordinal == Min(r.out[i].at, U32_MAX) { assert Genuine(r.out[i], r.log, Pow2(w)); }
    }
  }

  lemma {:induction false} Later(s: Session, from: nat, word: nat, i: nat, j: nat)
    requires Faithful(s, from, word) && i < j < |s.out|
    ensures s.out[i].at < s.out[j].at
    decreases j
  {
    assert s.out[j].at == Max(s.out[j - 1].at + 1, Oldest(s.out[j].head));
    if i < j - 1 { Later(s, from, word, i, j - 1); }
  }
}
