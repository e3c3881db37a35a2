/** The operational log on disk: a live file, numbered older generations, and rotation by renaming.
    A crash can fall between any two file effects; generations may be missing. */
module OpLog {

  type Byte = bv8
  type Record = seq<Byte>

  const MAX_BYTES: nat := 5 * 1024 * 1024
  const GENERATIONS: nat := 3

  /** What slot `k` holds; nothing when it is missing. */
  function At<T>(slots: map<nat, seq<T>>, k: nat): seq<T> {
    if k in slots then slots[k] else []
  }

  /** Everything held, oldest generation `n` first and the live file (slot 0) last. */
  function Joined<T>(slots: map<nat, seq<T>>, n: nat): seq<T> {
    if n == 0 then At(slots, 0) else At(slots, n) + Joined(slots, n - 1)
  }

  /** `os.replace`, a missing source ignored. */
  function Move<T>(slots: map<nat, T>, from: nat, to: nat): map<nat, T> {
    if from in slots then slots[to := slots[from]] - {from} else slots
  }

  /** The slot whose contents are at `k` once rotation has reached `gap`. */
  function Source(k: int, gap: nat): int {
    if k < gap then k else k - 1
  }

  /** Rotation that has reached slot `gap`: everything from there up has moved one slot older, and
      what was in slot `n` is gone. */
  ghost predicate Shifted<T>(before: map<nat, T>, after: map<nat, T>, gap: nat, n: nat) {
    forall k: nat ::
      && (k in after <==> k <= n && k != gap && Source(k, gap) in before)
      && (k in after ==> after[k] == before[Source(k, gap)])
  }

  lemma MoveShifts<T>(before: map<nat, T>, after: map<nat, T>, gap: nat, n: nat)
    requires gap < n && Shifted(before, after, gap + 1, n)
    ensures Shifted(before, Move(after, gap, gap + 1), gap, n)
  {
  }

  lemma AtShifted<T>(before: map<nat, seq<T>>, after: map<nat, seq<T>>, gap: nat, n: nat, j: nat)
    requires gap <= n && j <= n && Shifted(before, after, gap, n)
    ensures At(after, j) == if j == gap then [] else At(before, Source(j, gap))
  {
  }

  lemma {:induction false} JoinedShifted<T>(
      before: map<nat, seq<T>>, after: map<nat, seq<T>>, gap: nat, n: nat, j: nat)
    requires gap <= n && j <= n && Shifted(before, after, gap, n)
    ensures Joined(after, j) ==
            if j < gap then Joined(before, j) else if j == 0 then [] else Joined(before, j - 1)
  {
    AtShifted(before, after, gap, n, j);
    hide Shifted, At;
    if j > 0 {
      JoinedShifted(before, after, gap, n, j - 1);
    }
  }

  lemma {:induction false} JoinedSame<T>(a: map<nat, seq<T>>, b: map<nat, seq<T>>, n: nat)
    requires forall k :: 0 <= k <= n ==> At(a, k) == At(b, k)
    ensures Joined(a, n) == Joined(b, n)
  {
    if n > 0 {
      JoinedSame(a, b, n - 1);
    }
  }

  /** Opened for appending, created if missing, and `more` written at its end. */
  function Extended<T>(slots: map<nat, seq<T>>, more: seq<T>): map<nat, seq<T>> {
    slots[0 := At(slots, 0) + more]
  }

  lemma Regroup<T>(x: seq<T>, a: seq<T>, b: seq<T>, c: seq<T>)
    ensures x + (a + b + c) == (x + a) + b + c && x + (a + c) == (x + a) + c
  {
  }

  lemma ExtendedAt<T>(slots: map<nat, seq<T>>, more: seq<T>)
    ensures At(Extended(slots, more), 0) == At(slots, 0) + more
    ensures forall k :: k > 0 ==> At(Extended(slots, more), k) == At(slots, k)
  {
  }

  lemma {:induction false} JoinedAppend<T>(slots: map<nat, seq<T>>, x: T, n: nat)
    ensures Joined(Extended(slots, [x]), n) == Joined(slots, n) + [x]
  {
    assert At(Extended(slots, [x]), 0) == At(slots, 0) + [x];
    assert n != 0 ==> At(Extended(slots, [x]), n) == At(slots, n);
    hide At, Extended;
    if n > 0 {
      JoinedAppend(slots, x, n - 1);
      Regroup(At(slots, n), Joined(slots, n - 1), [], [x]);
    }
  }

  // -- records ----------------------------------------------------------------------------------

  /** The bytes of the records with these positions in the stream. */
  function Flat(stream: seq<Record>, ids: seq<int>): seq<Byte>
    requires InStream(ids, |stream|)
  {
    if ids == [] then [] else Flat(stream, ids[..|ids| - 1]) + stream[ids[|ids| - 1]]
  }

  lemma {:induction false} FlatConcat(stream: seq<Record>, a: seq<int>, b: seq<int>)
    requires InStream(a, |stream|) && InStream(b, |stream|)
    ensures Flat(stream, a + b) == Flat(stream, a) + Flat(stream, b)
  {
    if b == [] {
      assert a + b == a;
    } else {
      assert (a + b)[..|a + b| - 1] == a + b[..|b| - 1];
      FlatConcat(stream, a, b[..|b| - 1]);
    }
  }

  lemma {:induction false} FlatGrows(stream: seq<Record>, more: seq<Record>, ids: seq<int>)
    requires InStream(ids, |stream|)
    ensures InStream(ids, |stream + more|) && Flat(stream + more, ids) == Flat(stream, ids)
  {
    if ids != [] {
      FlatGrows(stream, more, ids[..|ids| - 1]);
    }
  }

  predicate Increasing(ids: seq<int>) {
    forall i, j :: 0 <= i < j < |ids| ==> ids[i] < ids[j]
  }

  /** The last `|ids|` positions of a stream of `total` records. */
  predicate IsTail(ids: seq<int>, total: nat) {
    |ids| <= total && forall k :: 0 <= k < |ids| ==> ids[k] == total - |ids| + k
  }

  predicate InStream(ids: seq<int>, total: nat) {
    forall k :: 0 <= k < |ids| ==> 0 <= ids[k] < total
  }

  function LongestOf(stream: seq<Record>): (r: nat)
    ensures forall k :: 0 <= k < |stream| ==> |stream[k]| <= r
    ensures stream == [] || exists k :: 0 <= k < |stream| && |stream[k]| == r
  {
    if stream == [] then 0
    else
      var rest := LongestOf(stream[..|stream| - 1]);
      var last := stream[|stream| - 1];
      if |last| >= rest then |last| else rest
  }

  lemma {:induction false} LongestGrows(stream: seq<Record>, more: Record)
    ensures LongestOf(stream) <= LongestOf(stream + [more])
  {
    assert (stream + [more])[..|stream|] == stream;
  }

  lemma BothInStream(a: seq<int>, b: seq<int>, total: nat)
    requires InStream(a, total) && InStream(b, total)
    ensures InStream(a + b, total)
  {
  }

  /** The files hold whole records, in the order of their positions. */
  lemma {:induction false} FilesAreWholeRecords(
      files: map<nat, seq<Byte>>, ids: map<nat, seq<int>>, stream: seq<Record>, n: nat)
    requires forall k :: 0 <= k <= n ==> InStream(At(ids, k), |stream|) && At(files, k) == Flat(stream, At(ids, k))
    ensures InStream(Joined(ids, n), |stream|)
    ensures Joined(files, n) == Flat(stream, Joined(ids, n))
  {
    hide Flat, InStream;
    if n > 0 {
      FilesAreWholeRecords(files, ids, stream, n - 1);
      BothInStream(At(ids, n), Joined(ids, n - 1), |stream|);
      FlatConcat(stream, At(ids, n), Joined(ids, n - 1));
    }
  }

  /** The whole appended stream. */
  function Everything(stream: seq<Record>): seq<Byte> {
    if stream == [] then [] else Everything(stream[..|stream| - 1]) + stream[|stream| - 1]
  }

  lemma {:induction false} TailIsASuffix(stream: seq<Record>, ids: seq<int>)
    requires IsTail(ids, |stream|)
    ensures InStream(ids, |stream|)
    ensures Everything(stream) == Everything(stream[..|stream| - |ids|]) + Flat(stream, ids)
  {
    if ids == [] {
      assert stream[..|stream|] == stream;
    } else {
      var front, rest := stream[..|stream| - 1], ids[..|ids| - 1];
      TailIsASuffix(front, rest);
      assert front + [stream[|stream| - 1]] == stream;
      FlatGrows(front, [stream[|stream| - 1]], rest);
      assert front[..|front| - |rest|] == stream[..|stream| - |ids|];
    }
  }

  /** Generations from `n` down to the one just older than `k`. */
  function Older<T>(slots: map<nat, seq<T>>, k: nat, n: nat): seq<T>
    decreases n
  {
    if n <= k then [] else At(slots, n) + Older(slots, k, n - 1)
  }

  function Newer<T>(slots: map<nat, seq<T>>, k: nat): seq<T> {
    if k == 0 then [] else Joined(slots, k - 1)
  }

  lemma {:induction false} JoinedAround<T>(slots: map<nat, seq<T>>, k: nat, n: nat)
    requires k <= n
    ensures Joined(slots, n) == Older(slots, k, n) + At(slots, k) + Newer(slots, k)
  {
    hide At;
    if n > k {
      JoinedAround(slots, k, n - 1);
      Regroup(At(slots, n), Older(slots, k, n - 1), At(slots, k), Newer(slots, k));
    }
  }

  lemma {:induction false} JoinedWithout<T>(slots: map<nat, seq<T>>, k: nat, n: nat)
    requires k <= n
    ensures Joined(slots - {k}, n) == Older(slots, k, n) + Newer(slots, k)
  {
    assert n != k ==> At(slots - {k}, n) == At(slots, n);
    assert At(slots - {k}, k) == [];
    if n > k {
      hide At;
      JoinedWithout(slots, k, n - 1);
      Regroup(At(slots, n), Older(slots, k, n - 1), [], Newer(slots, k));
    } else if k > 0 {
      JoinedSame(slots, slots - {k}, k - 1);
    }
  }

  /** Losing one file from outside keeps a tail exactly when it was empty or nothing older is left:
      a gap in the middle keeps only the order. */
  lemma DeletionKeepsTail(older: seq<int>, lost: seq<int>, newer: seq<int>, total: nat)
    requires IsTail(older + lost + newer, total)
    ensures IsTail(older + newer, total) <==> older == [] || lost == []
  {
    var held := older + lost + newer;
    if older != [] && lost != [] {
      assert held[|older| - 1] == (older + newer)[|older| - 1];
    } else if older == [] {
      forall k | 0 <= k < |newer|
        ensures newer[k] == total - |newer| + k
      {
        assert newer[k] == held[|lost| + k];
      }
      assert older + newer == newer;
    } else {
      assert held == older + newer;
    }
  }

  // -- any number of losses ------------------------------------------------------------------------

  /** What became of every record ever appended: it is held, or was lost with its file, or is older than
      everything held, rotated out. */
  predicate Accounted(held: seq<int>, lost: set<int>, total: nat) {
    && (forall x :: x in lost ==> 0 <= x < total && x !in held)
    && forall x, h :: 0 <= x < total && x !in held && x !in lost && h in held ==> x < h
  }

  lemma {:induction false} TailIffNoneNewer(held: seq<int>, total: nat)
    requires Increasing(held) && InStream(held, total)
    ensures IsTail(held, total) <==> forall x, h :: 0 <= x < total && x !in held && h in held ==> x < h
  {
    if held != [] {
      var front, last := held[..|held| - 1], held[|held| - 1];
      if IsTail(held, total) {
        forall x | total - |held| <= x < total
          ensures x in held
        {
          assert held[x - (total - |held|)] == x;
        }
      }
      if forall x, h :: 0 <= x < total && x !in held && h in held ==> x < h {
        assert last in held;
        assert total - 1 in held;
        var top :| 0 <= top < |held| && held[top] == total - 1;
        assert held[top] <= held[|held| - 1];
        forall x, h | 0 <= x < total - 1 && x !in front && h in front
          ensures x < h
        {
          assert h in held;
          assert x in held ==> x == last;
        }
        assert InStream(front, total - 1) by {
          forall k | 0 <= k < |front| ensures front[k] < total - 1 {
            assert held[k] < held[|held| - 1];
          }
        }
        TailIffNoneNewer(front, total - 1);
      }
    }
  }

  /** Over any sequence of appends, rotations, crashes and losses: what is held is a suffix of the
      stream if and only if no record that was lost is newer than one still held. */
  lemma SuffixIffNoGapIsLeft(held: seq<int>, lost: set<int>, total: nat)
    requires Increasing(held) && InStream(held, total) && Accounted(held, lost, total)
    ensures IsTail(held, total) <==> forall x, h :: x in lost && h in held ==> x < h
  {
    TailIffNoneNewer(held, total);
    hide IsTail, Increasing;
  }

  lemma AccountedRotated(oldest: seq<int>, kept: seq<int>, lost: set<int>, total: nat)
    requires Increasing(oldest + kept) && Accounted(oldest + kept, lost, total)
    ensures Accounted(kept, lost, total)
  {
    forall x, h | 0 <= x < total && x !in kept && x !in lost && h in kept
      ensures x < h
    {
      assert h in oldest + kept;
      if x in oldest {
        var i :| 0 <= i < |oldest| && oldest[i] == x;
        var j :| 0 <= j < |kept| && kept[j] == h;
        assert (oldest + kept)[i] == x && (oldest + kept)[|oldest| + j] == h;
      }
    }
  }

  lemma AccountedNext(held: seq<int>, lost: set<int>, total: nat)
    requires InStream(held, total) && Accounted(held, lost, total)
    ensures Accounted(held + [total], lost, total + 1)
  {
  }

  lemma AccountedLoss(older: seq<int>, gone: seq<int>, newer: seq<int>, lost: set<int>, total: nat)
    requires Increasing(older + gone + newer) && InStream(older + gone + newer, total)
    requires Accounted(older + gone + newer, lost, total)
    ensures Accounted(older + newer, lost + (set x | x in gone), total)
  {
    var held := older + gone + newer;
    forall x | x in gone
      ensures 0 <= x < total && x !in older + newer
    {
      var i :| 0 <= i < |gone| && gone[i] == x;
      assert held[|older| + i] == x;
      forall j | 0 <= j < |older| ensures older[j] != x {
        assert held[j] == older[j];
      }
      forall j | 0 <= j < |newer| ensures newer[j] != x {
        assert held[|older| + |gone| + j] == newer[j];
      }
    }
    forall x, h | 0 <= x < total && x !in older + newer && x !in lost && x !in gone && h in older + newer
      ensures x < h
    {
      assert x !in held && h in held;
    }
  }

  /** What holds of the files, the records each holds and everything appended so far. */
  ghost predicate Sound(files: map<nat, seq<Byte>>, ids: map<nat, seq<int>>, stream: seq<Record>) {
    SoundSlots(files, ids, stream) && Increasing(Joined(ids, GENERATIONS))
  }

  ghost predicate SoundSlots(files: map<nat, seq<Byte>>, ids: map<nat, seq<int>>, stream: seq<Record>) {
    && files.Keys == ids.Keys && (forall k :: k in files ==> k <= GENERATIONS)
    && (forall k :: k in files ==> SoundSlot(files[k], ids[k], stream))
  }

  /** A file is whole records, and no longer than the cap or one record. */
  predicate SoundSlot(file: seq<Byte>, ids: seq<int>, stream: seq<Record>) {
    && InStream(ids, |stream|) && file == Flat(stream, ids)
    && (|file| <= MAX_BYTES || |file| <= LongestOf(stream))
  }

  lemma SoundJoined(files: map<nat, seq<Byte>>, ids: map<nat, seq<int>>, stream: seq<Record>)
    requires Sound(files, ids, stream)
    ensures InStream(Joined(ids, GENERATIONS), |stream|)
    ensures Joined(files, GENERATIONS) == Flat(stream, Joined(ids, GENERATIONS))
  {
    forall k | 0 <= k <= GENERATIONS
      ensures InStream(At(ids, k), |stream|) && At(files, k) == Flat(stream, At(ids, k))
    {
    }
    FilesAreWholeRecords(files, ids, stream, GENERATIONS);
  }

  /** As long as what is held is a tail, the files from the oldest generation to the live one are a
      suffix of everything appended, cut between two records. */
  lemma FilesAreASuffix(files: map<nat, seq<Byte>>, ids: map<nat, seq<int>>, stream: seq<Record>)
    requires Sound(files, ids, stream) && IsTail(Joined(ids, GENERATIONS), |stream|)
    ensures Everything(stream) ==
            Everything(stream[..|stream| - |Joined(ids, GENERATIONS)|]) + Joined(files, GENERATIONS)
  {
    SoundJoined(files, ids, stream);
    TailIsASuffix(stream, Joined(ids, GENERATIONS));
    hide Joined;
  }

  lemma IncreasingPart(a: seq<int>, b: seq<int>)
    requires Increasing(a + b)
    ensures Increasing(b)
  {
    forall i, j | 0 <= i < j < |b|
      ensures b[i] < b[j]
    {
      assert (a + b)[|a| + i] == b[i] && (a + b)[|a| + j] == b[j];
    }
  }

  /** What a rotation stopped at `gap` leaves: all that was held, less the oldest generation. */
  lemma ShiftIsSound(
      files: map<nat, seq<Byte>>, ids: map<nat, seq<int>>, stream: seq<Record>, gap: nat,
      files': map<nat, seq<Byte>>, ids': map<nat, seq<int>>)
    requires Sound(files, ids, stream) && gap <= GENERATIONS
    requires Shifted(files, files', gap, GENERATIONS) && Shifted(ids, ids', gap, GENERATIONS)
    ensures Sound(files', ids', stream)
    ensures Joined(ids', GENERATIONS) == Joined(ids, GENERATIONS - 1)
  {
    hide SoundSlot, Increasing;
    JoinedShifted(ids, ids', gap, GENERATIONS, GENERATIONS);
    IncreasingPart(At(ids, GENERATIONS), Joined(ids, GENERATIONS - 1));
    hide Joined;
  }

  lemma IncreasingNext(ids: seq<int>, total: nat)
    requires Increasing(ids) && InStream(ids, total)
    ensures Increasing(ids + [total]) && InStream(ids + [total], total + 1)
  {
  }

  lemma SlotSurvives(file: seq<Byte>, ids: seq<int>, stream: seq<Record>, data: Record)
    requires SoundSlot(file, ids, stream)
    ensures SoundSlot(file, ids, stream + [data])
  {
    FlatGrows(stream, [data], ids);
    LongestGrows(stream, data);
  }

  lemma SlotExtends(file: seq<Byte>, ids: seq<int>, stream: seq<Record>, data: Record)
    requires SoundSlot(file, ids, stream) && Fits(file, data)
    ensures SoundSlot(file + data, ids + [|stream|], stream + [data])
  {
    FlatGrows(stream, [data], ids);
    assert (ids + [|stream|])[..|ids|] == ids;
    assert (stream + [data])[|stream|] == data;
  }

  lemma AppendKeepsSlots(files: map<nat, seq<Byte>>, ids: map<nat, seq<int>>, stream: seq<Record>, data: Record)
    requires SoundSlots(files, ids, stream) && Fits(At(files, 0), data)
    ensures SoundSlots(Extended(files, data), Extended(ids, [|stream|]), stream + [data])
  {
    assert SoundSlot(At(files, 0), At(ids, 0), stream);
    hide SoundSlot;
    SlotExtends(At(files, 0), At(ids, 0), stream, data);
    forall k | k in files
      ensures SoundSlot(files[k], ids[k], stream + [data])
    {
      SlotSurvives(files[k], ids[k], stream, data);
    }
  }

  lemma AppendIsSound(files: map<nat, seq<Byte>>, ids: map<nat, seq<int>>, stream: seq<Record>, data: Record)
    requires Sound(files, ids, stream) && Fits(At(files, 0), data)
    ensures Sound(Extended(files, data), Extended(ids, [|stream|]), stream + [data])
    ensures Joined(Extended(ids, [|stream|]), GENERATIONS) == Joined(ids, GENERATIONS) + [|stream|]
  {
    AppendKeepsSlots(files, ids, stream, data);
    SoundJoined(files, ids, stream);
    hide SoundSlots;
    JoinedAppend(ids, |stream|, GENERATIONS);
    IncreasingNext(Joined(ids, GENERATIONS), |stream|);
  }

  predicate Fits(live: seq<Byte>, data: Record) {
    |live| == 0 || |live| + |data| <= MAX_BYTES
  }

  lemma TouchIsSound(files: map<nat, seq<Byte>>, ids: map<nat, seq<int>>, stream: seq<Record>)
    requires Sound(files, ids, stream) && 0 !in files
    ensures Sound(Extended(files, []), Extended(ids, []), stream)
    ensures Joined(Extended(ids, []), GENERATIONS) == Joined(ids, GENERATIONS)
  {
    JoinedSame(ids, Extended(ids, []), GENERATIONS);
    hide Joined;
  }

  lemma UnlinkShifts(files: map<nat, seq<Byte>>, ids: map<nat, seq<int>>, stream: seq<Record>)
    requires Sound(files, ids, stream)
    ensures Shifted(files, files - {GENERATIONS}, GENERATIONS, GENERATIONS)
    ensures Shifted(ids, ids - {GENERATIONS}, GENERATIONS, GENERATIONS)
  {
    hide SoundSlot, Joined;
  }

  lemma SlotZeroMoved(before: map<nat, seq<Byte>>, after: map<nat, seq<Byte>>)
    requires Shifted(before, after, 0, GENERATIONS)
    ensures 0 !in after
  {
  }

  lemma TailKept(ids: map<nat, seq<int>>, total: nat)
    requires IsTail(Joined(ids, GENERATIONS), total)
    ensures IsTail(Joined(ids, GENERATIONS - 1), total)
    ensures IsTail(Joined(ids, GENERATIONS - 1) + [total], total + 1)
    ensures IsTail(Joined(ids, GENERATIONS) + [total], total + 1)
  {
    var rest, held := Joined(ids, GENERATIONS - 1), Joined(ids, GENERATIONS);
    assert held == At(ids, GENERATIONS) + rest;
    hide Joined, At;
    forall k | 0 <= k < |rest|
      ensures rest[k] == total - |rest| + k
    {
      assert held[|held| - |rest| + k] == rest[k];
    }
  }

  lemma LossIsSound(files: map<nat, seq<Byte>>, ids: map<nat, seq<int>>, stream: seq<Record>, k: nat)
    requires Sound(files, ids, stream) && k <= GENERATIONS
    ensures Sound(files - {k}, ids - {k}, stream)
    ensures Joined(ids, GENERATIONS) == Older(ids, k, GENERATIONS) + At(ids, k) + Newer(ids, k)
    ensures Joined(ids - {k}, GENERATIONS) == Older(ids, k, GENERATIONS) + Newer(ids, k)
  {
    hide SoundSlot;
    JoinedAround(ids, k, GENERATIONS);
    JoinedWithout(ids, k, GENERATIONS);
    IncreasingGap(Older(ids, k, GENERATIONS), At(ids, k), Newer(ids, k));
    hide Joined, Older, Newer, Increasing;
  }

  lemma IncreasingGap(a: seq<int>, b: seq<int>, c: seq<int>)
    requires Increasing(a + b + c)
    ensures Increasing(a + c)
  {
    forall i, j | 0 <= i < j < |a + c|
      ensures (a + c)[i] < (a + c)[j]
    {
      var held := a + b + c;
      assert held[if i < |a| then i else i + |b|] == (a + c)[i];
      assert held[if j < |a| then j else j + |b|] == (a + c)[j];
    }
  }

  lemma RotationIsAccounted(
      files: map<nat, seq<Byte>>, ids: map<nat, seq<int>>, stream: seq<Record>, lost: set<int>)
    requires Sound(files, ids, stream) && Accounted(Joined(ids, GENERATIONS), lost, |stream|)
    ensures Accounted(Joined(ids, GENERATIONS - 1), lost, |stream|)
  {
    AccountedRotated(At(ids, GENERATIONS), Joined(ids, GENERATIONS - 1), lost, |stream|);
    hide Accounted, Increasing, SoundSlots;
  }

  lemma NextIsAccounted(
      files: map<nat, seq<Byte>>, ids: map<nat, seq<int>>, stream: seq<Record>, lost: set<int>)
    requires Sound(files, ids, stream) && Accounted(Joined(ids, GENERATIONS), lost, |stream|)
    ensures Accounted(Joined(ids, GENERATIONS) + [|stream|], lost, |stream| + 1)
  {
    SoundJoined(files, ids, stream);
    AccountedNext(Joined(ids, GENERATIONS), lost, |stream|);
    hide Accounted, SoundSlots;
  }

  lemma LossIsAccounted(
      files: map<nat, seq<Byte>>, ids: map<nat, seq<int>>, stream: seq<Record>, lost: set<int>, k: nat)
    requires Sound(files, ids, stream) && Accounted(Joined(ids, GENERATIONS), lost, |stream|) && k <= GENERATIONS
    ensures Accounted(Joined(ids - {k}, GENERATIONS), lost + (set x | x in At(ids, k)), |stream|)
  {
    SoundJoined(files, ids, stream);
    LossIsSound(files, ids, stream, k);
    AccountedLoss(Older(ids, k, GENERATIONS), At(ids, k), Newer(ids, k), lost, |stream|);
    hide Joined, Accounted, Increasing, SoundSlots, InStream, At, Older, Newer;
  }

  /** One rotated file with its generations. */
  class LogFile {
    /** Slot 0 is the live file, slot `k` generation `k`. */
    var files: map<nat, seq<Byte>>

    /** Everything appended so far, and which records each file holds. */
    ghost var stream: seq<Record>
    ghost var ids: map<nat, seq<int>>
    /** The records that went with a file deleted from outside. */
    ghost var lost: set<int>

    ghost function Held(): seq<int>
      reads this
    {
      Joined(ids, GENERATIONS)
    }

    ghost predicate Valid()
      reads this
    {
      Sound(files, ids, stream) && Accounted(Held(), lost, |stream|)
    }

    constructor ()
      ensures Valid() && files == map[] && stream == [] && Held() == [] && lost == {}
    {
      files, stream, ids, lost := map[], [], map[], {};
    }

    /** `_rotate_locked`: the renames done before a crash are a rotation stopped at some slot. */
    method Rotate() returns (crashed: bool, ghost gap: nat)
      requires Valid()
      modifies this
      ensures stream == old(stream) && lost == old(lost) && gap <= GENERATIONS + 1
      ensures gap == GENERATIONS + 1 ==> crashed && files == old(files) && ids == old(ids)
      ensures gap <= GENERATIONS ==>
                Shifted(old(files), files, gap, GENERATIONS) && Shifted(old(ids), ids, gap, GENERATIONS)
      ensures !crashed ==> gap == 0
    {
      hide Sound, Shifted, Move, Accounted;
      gap := GENERATIONS + 1;
      crashed := *;
      if crashed { return; }
      UnlinkShifts(files, ids, stream);
      files, ids, gap := files - {GENERATIONS}, ids - {GENERATIONS}, GENERATIONS;
      var number := GENERATIONS - 1;
      while number > 0
        invariant 0 <= number < GENERATIONS && gap == number + 1
        invariant stream == old(stream) && lost == old(lost)
        invariant Shifted(old(files), files, gap, GENERATIONS) && Shifted(old(ids), ids, gap, GENERATIONS)
      {
        crashed := *;
        if crashed { return; }
        MoveShifts(old(files), files, number, GENERATIONS);
        MoveShifts(old(ids), ids, number, GENERATIONS);
        files, ids := Move(files, number, number + 1), Move(ids, number, number + 1);
        number, gap := number - 1, gap - 1;
      }
      crashed := *;
      if crashed { return; }
      MoveShifts(old(files), files, 0, GENERATIONS);
      MoveShifts(old(ids), ids, 0, GENERATIONS);
      files, ids := Move(files, 0, 1), Move(ids, 0, 1);
      gap := 0;
    }

    /** Opening the live file, creating it if need be, and writing one record to it. */
    method Write(data: Record) returns (crashed: bool)
      requires Valid() && Fits(At(files, 0), data)
      modifies this
      ensures Valid() && lost == old(lost)
      ensures stream == if crashed then old(stream) else old(stream) + [data]
      ensures Held() == if crashed then old(Held()) else old(Held()) + [|old(stream)|]
      ensures forall k :: k > 0 ==> At(files, k) == old(At(files, k))
      ensures At(files, 0) == old(At(files, 0)) + if crashed then [] else data
    {
      hide Sound, Joined, Accounted, Fits, Extended, At;
      crashed := *;
      if crashed { return; }
      OpenLive();
      crashed := *;
      if crashed { return; }
      NextIsAccounted(files, ids, stream, lost);
      AppendIsSound(files, ids, stream, data);
      ExtendedAt(files, data);
      files, ids := Extended(files, data), Extended(ids, [|stream|]);
      stream := stream + [data];
    }

    /** The live file is created if it is missing. */
    method OpenLive()
      requires Valid()
      modifies this`files, this`ids
      ensures Valid() && Held() == old(Held()) && files.Keys == old(files.Keys) + {0}
      ensures forall k :: At(files, k) == old(At(files, k))
    {
      if 0 !in files {
        TouchIsSound(files, ids, stream);
        hide Sound, Joined, Accounted;
        files, ids := Extended(files, []), Extended(ids, []);
      }
    }

    /** The size test of `_append`. */
    method MakeRoom(data: Record) returns (crashed: bool, ghost kept: seq<int>)
      requires Valid()
      modifies this
      ensures Valid() && lost == old(lost) && stream == old(stream) && Held() == kept
      ensures if Fits(old(At(files, 0)), data) then !crashed && kept == old(Held())
              else kept == old(Joined(ids, GENERATIONS - 1)) || (crashed && kept == old(Held()))
      ensures !crashed ==> Fits(At(files, 0), data)
    {
      crashed, kept := false, Held();
      var size := if 0 in files then |files[0]| else 0;
      if size > 0 && size + |data| > MAX_BYTES {
        RotationIsAccounted(files, ids, stream, lost);
        hide Sound, Shifted, Joined, Accounted;
        ghost var gap;
        crashed, gap := Rotate();
        if gap <= GENERATIONS {
          ShiftIsSound(old(files), old(ids), stream, gap, files, ids);
          kept := Held();
        }
        if !crashed {
          SlotZeroMoved(old(files), files);
        }
      }
    }

    /** `_append`, for one record: only a rotation loses anything, and then the oldest generation;
        what is held stays in order, and stays a tail of the stream if it was one. */
    method Append(data: Record) returns (crashed: bool, ghost kept: seq<int>)
      requires Valid()
      modifies this
      ensures Valid() && lost == old(lost)
      ensures stream == if crashed then old(stream) else old(stream) + [data]
      ensures Held() == if crashed then kept else kept + [|old(stream)|]
      ensures kept == old(Held()) || kept == old(Joined(ids, GENERATIONS - 1))
      ensures if Fits(old(At(files, 0)), data) then kept == old(Held())
              else !crashed ==> kept == old(Joined(ids, GENERATIONS - 1))
      ensures old(IsTail(Held(), |stream|)) ==> IsTail(Held(), |stream|)
      ensures IsTail(Held(), |stream|) <==> forall x, h :: x in lost && h in Held() ==> x < h
    {
      hide Sound, Joined, IsTail, Fits, At, Accounted;
      if IsTail(Held(), |stream|) {
        TailKept(ids, |stream|);
      }
      crashed, kept := MakeRoom(data);
      if !crashed {
        crashed := Write(data);
      }
      HeldIsASuffixIff();
    }

    /** What is held is a suffix exactly while nothing lost is newer than something held. */
    lemma HeldIsASuffixIff()
      requires Valid()
      ensures IsTail(Held(), |stream|) <==> forall x, h :: x in lost && h in Held() ==> x < h
    {
      SoundJoined(files, ids, stream);
      SuffixIffNoGapIsLeft(Held(), lost, |stream|);
      hide Joined, IsTail, Accounted, SoundSlots;
    }

    /** A file lost to something else: what is left is still in order, and still a tail exactly when
        the file was empty or the oldest. */
    method Lose(k: nat)
      requires Valid() && k <= GENERATIONS
      modifies this
      ensures Valid() && stream == old(stream) && files == old(files) - {k}
      ensures Held() == old(Older(ids, k, GENERATIONS)) + old(Newer(ids, k))
      ensures old(IsTail(Held(), |stream|)) ==>
                (IsTail(Held(), |stream|) <==> old(Older(ids, k, GENERATIONS)) == [] || old(At(ids, k)) == [])
      ensures lost == old(lost) + set x | x in old(At(ids, k))
      ensures IsTail(Held(), |stream|) <==> forall x, h :: x in lost && h in Held() ==> x < h
    {
      LossIsSound(files, ids, stream, k);
      LossIsAccounted(files, ids, stream, lost, k);
      hide Sound, Joined, IsTail, Flat, Accounted, At, Older, Newer;
      if IsTail(Held(), |stream|) {
        DeletionKeepsTail(Older(ids, k, GENERATIONS), At(ids, k), Newer(ids, k), |stream|);
      }
      ghost var gone := At(ids, k);
      files, ids, lost := files - {k}, ids - {k}, lost + set x | x in gone;
      HeldIsASuffixIff();
    }
  }
}
