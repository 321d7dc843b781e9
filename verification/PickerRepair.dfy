/** When the repair of picker ids goes through, and when a second repair finds nothing to do. */
module PickerRepair {
  import opened Common
  import opened Picker

  predicate Valid(row: Row) {
    row.picker.Some? && IsPickerId(row.picker.value)
  }

  /** The rows before n served in turn: an entry on its own gets the id allocated for it, the
      entries of a model with several get none. */
  ghost function HandedOut(rows: Table, n: nat): (now: Table)
    requires n <= |rows|
    ensures |now| == |rows|
  {
    if n == 0 then rows
    else
      var before, row := HandedOut(rows, n - 1), rows[n - 1];
      if !NeedsId(row) then before
      else
        SetPicker(before, row.owner.value,
          if OneEntry(rows, row.owner.value) then Allocated(before, row.owner, row.slug) else None)
  }

  /** The row needs an id, and its model has a second entry. */
  ghost predicate Doubled(rows: Table, i: nat)
    requires i < |rows|
  {
    NeedsId(rows[i]) && !OneEntry(rows, rows[i].owner.value)
  }

  /** No id is free for a model with a second entry when its turn comes. */
  ghost predicate NoneFreeInTurn(rows: Table) {
    forall i | 0 <= i < |rows| && Doubled(rows, i) ::
      Allocated(HandedOut(rows, i), rows[i].owner, rows[i].slug).None?
  }

  /** A model with an entry to repair has no valid id on another entry. */
  ghost predicate NothingToLose(rows: Table) {
    forall i, j | 0 <= i < |rows| && 0 <= j < |rows| && NeedsId(rows[i]) && rows[j].owner == rows[i].owner ::
      !Valid(rows[j])
  }

  /** Every valid id stays on its entry. */
  predicate KeepsIds(rows: Table, now: Table) {
    |now| == |rows| && forall k | 0 <= k < |rows| && Valid(rows[k]) :: now[k] == rows[k]
  }

  ghost predicate SameButIds(rows: Table, now: Table) {
    |now| == |rows| && forall k | 0 <= k < |rows| :: now[k] == rows[k].(picker := now[k].picker)
  }

  lemma {:induction false} OnlyIdsChange(rows: Table, n: nat)
    requires n <= |rows|
    ensures SameButIds(rows, HandedOut(rows, n))
  {
    if n > 0 {
      OnlyIdsChange(rows, n - 1);
    }
  }

  lemma {:induction false} SameEntries(rows: Table, now: Table, owner: nat)
    requires SameButIds(rows, now)
    ensures OneEntry(now, owner) <==> OneEntry(rows, owner)
  {
    assert forall k | 0 <= k < |rows| :: now[k].owner == rows[k].owner;
    if OneEntry(now, owner) {
      assert forall i, j | 0 <= i < j < |rows| :: !(now[i].owner == now[j].owner == Some(owner));
    }
  }

  // ---- When the repair goes through ----

  lemma {:induction false} HandedUnique(rows: Table, n: nat)
    requires n <= |rows| && Unique(rows)
    ensures Unique(HandedOut(rows, n))
  {
    if n > 0 && NeedsId(rows[n - 1]) {
      var before, row := HandedOut(rows, n - 1), rows[n - 1];
      HandedUnique(rows, n - 1);
      OnlyIdsChange(rows, n - 1);
      SameEntries(rows, before, row.owner.value);
      if OneEntry(rows, row.owner.value) {
        SetAllocatedUnique(before, row.owner.value, row.slug);
      } else {
        SetNoneUnique(before, row.owner.value);
      }
    } else if n > 0 {
      HandedUnique(rows, n - 1);
    }
  }

  /** A free id goes to every entry of its model, so the index admits it for one entry only. */
  lemma {:induction false} FreeIdFits(rows: Table, owner: nat, preferred: Option<string>)
    requires Unique(rows) && Allocated(rows, Some(owner), preferred).Some?
    ensures Unique(SetPicker(rows, owner, Allocated(rows, Some(owner), preferred))) <==> OneEntry(rows, owner)
  {
    if OneEntry(rows, owner) {
      SetAllocatedUnique(rows, owner, preferred);
    }
  }

  /** One row of the repair: it clashes exactly if its model is doubled and an id is free. */
  lemma {:induction false} RowFits(rows: Table, n: nat)
    requires n < |rows| && Unique(rows) && NeedsId(rows[n])
    ensures var now := RepairOne(HandedOut(rows, n), rows[n]);
            if Doubled(rows, n) && Allocated(HandedOut(rows, n), rows[n].owner, rows[n].slug).Some? then !Unique(now)
            else Unique(now) && now == HandedOut(rows, n + 1)
  {
    var before, row := HandedOut(rows, n), rows[n];
    HandedUnique(rows, n);
    HandedUnique(rows, n + 1);
    OnlyIdsChange(rows, n);
    SameEntries(rows, before, row.owner.value);
    if Allocated(before, row.owner, row.slug).Some? {
      FreeIdFits(before, row.owner.value, row.slug);
    }
  }

  ghost predicate NoneFreeFrom(rows: Table, n: nat) {
    forall i | n <= i < |rows| && Doubled(rows, i) ::
      Allocated(HandedOut(rows, i), rows[i].owner, rows[i].slug).None?
  }

  lemma {:induction false} RepairFrom(rows: Table, n: nat)
    requires n <= |rows| && Unique(rows)
    ensures Repaired(HandedOut(rows, n), Pending(rows[n..])) ==
              if NoneFreeFrom(rows, n) then Some(HandedOut(rows, |rows|)) else None
    decreases |rows| - n
  {
    if n < |rows| {
      PendingFrom(rows, n);
      RepairFrom(rows, n + 1);
      var rest := Pending(rows[n + 1..]);
      if NeedsId(rows[n]) {
        RowFits(rows, n);
        assert ([rows[n]] + rest)[1..] == rest;
      } else {
        assert [] + rest == rest;
      }
      NoneFreeNext(rows, n);
    }
  }

  lemma {:induction false} NoneFreeNext(rows: Table, n: nat)
    requires n < |rows|
    ensures NoneFreeFrom(rows, n) <==>
              NoneFreeFrom(rows, n + 1) &&
              (Doubled(rows, n) ==> Allocated(HandedOut(rows, n), rows[n].owner, rows[n].slug).None?)
  {
  }

  /** The repair goes through exactly if no id is free for any model with a second entry when
      its turn comes; then the ids are those handed out. */
  lemma {:induction false} RepairIff(rows: Table)
    requires Unique(rows)
    ensures Reconciled(rows).Some? <==> NoneFreeInTurn(rows)
    ensures Reconciled(rows).Some? ==>
              Reconciled(rows) == Some(HandedOut(rows, |rows|)) && Unique(HandedOut(rows, |rows|))
  {
    assert rows[0..] == rows;
    RepairFrom(rows, 0);
    HandedUnique(rows, |rows|);
  }

  // ---- When a second repair finds nothing to do ----

  lemma {:induction false} HandedStep(rows: Table, n: nat, k: nat)
    requires n < |rows| && k < |rows|
    ensures HandedOut(rows, n + 1)[k] == HandedOut(rows, n)[k] ||
            (NeedsId(rows[n]) && rows[k].owner == rows[n].owner)
  {
    OnlyIdsChange(rows, n);
  }

  /** The entries of a doubled model keep what they have until they lose it. */
  lemma {:induction false} DoubledLose(rows: Table, i: nat, n: nat, k: nat)
    requires i < |rows| && k < |rows| && n <= |rows| && Doubled(rows, i) && rows[k].owner == rows[i].owner
    ensures HandedOut(rows, n)[k].picker in {rows[k].picker, None}
    ensures n > i ==> HandedOut(rows, n)[k].picker == None
  {
    if n > 0 {
      DoubledLose(rows, i, n - 1, k);
      OnlyIdsChange(rows, n - 1);
    }
  }

  lemma {:induction false} NoOther(rows: Table, i: nat, k: nat)
    requires i < |rows| && k < |rows| && i != k && NeedsId(rows[i]) && !Doubled(rows, i)
    ensures rows[k].owner != rows[i].owner
  {
    assert OneEntry(rows, rows[i].owner.value);
  }

  lemma {:induction false} OtherTurn(rows: Table, i: nat, n: nat)
    requires i < |rows| && n < |rows| && n != i && NeedsId(rows[i]) && !Doubled(rows, i)
    ensures HandedOut(rows, n + 1)[i] == HandedOut(rows, n)[i]
  {
    HandedStep(rows, n, i);
    NoOther(rows, i, n);
  }

  lemma {:induction false} OwnTurn(rows: Table, i: nat)
    requires i < |rows| && NeedsId(rows[i]) && !Doubled(rows, i)
    ensures HandedOut(rows, i + 1)[i].picker == Allocated(HandedOut(rows, i), rows[i].owner, rows[i].slug)
  {
    OnlyIdsChange(rows, i);
  }

  /** An entry on its own is served in its own turn only. */
  lemma {:induction false} SingleServed(rows: Table, i: nat, n: nat)
    requires i < |rows| && n <= |rows| && NeedsId(rows[i]) && !Doubled(rows, i)
    ensures n <= i ==> HandedOut(rows, n)[i] == rows[i]
    ensures n > i ==> HandedOut(rows, n)[i].picker == Allocated(HandedOut(rows, i), rows[i].owner, rows[i].slug)
  {
    if n > 0 {
      SingleServed(rows, i, n - 1);
      if n - 1 == i {
        OwnTurn(rows, i);
      } else {
        OtherTurn(rows, i, n - 1);
      }
    }
  }

  /** With nothing to lose, an id once valid on an entry stays there. */
  lemma {:induction false} ValidStays(rows: Table, n: nat, k: nat)
    requires n < |rows| && k < |rows| && NothingToLose(rows) && Valid(HandedOut(rows, n)[k])
    ensures HandedOut(rows, n + 1)[k] == HandedOut(rows, n)[k]
  {
    HandedStep(rows, n, k);
    OnlyIdsChange(rows, n);
    if NeedsId(rows[n]) && rows[k].owner == rows[n].owner {
      assert !Valid(rows[k]);
      if Doubled(rows, n) {
        DoubledLose(rows, n, n, k);
      } else {
        SingleServed(rows, n, n);
      }
    }
  }

  lemma {:induction false} ValidStaysTo(rows: Table, n: nat, m: nat)
    requires n <= m <= |rows| && NothingToLose(rows)
    ensures KeepsIds(HandedOut(rows, n), HandedOut(rows, m))
    decreases m - n
  {
    OnlyIdsChange(rows, n);
    OnlyIdsChange(rows, m);
    if n < m {
      OnlyIdsChange(rows, n + 1);
      ValidStaysTo(rows, n + 1, m);
      forall k | 0 <= k < |rows| && Valid(HandedOut(rows, n)[k])
        ensures HandedOut(rows, m)[k] == HandedOut(rows, n)[k]
      {
        ValidStays(rows, n, k);
      }
    }
  }

  lemma {:induction false} CandidateIsId(base: string, k: nat)
    requires IsPickerId(base) && |Candidate(base, k)| <= MAX_LENGTH
    ensures IsPickerId(Candidate(base, k))
  {
    if k > 1 {
      DecimalChars(k);
    }
  }

  /** Where valid ids stay, what was not free does not become free. */
  lemma {:induction false} BlockedStays(rows: Table, now: Table, excluded: Option<nat>, base: string, k: nat)
    requires KeepsIds(rows, now) && IsPickerId(base) && !FreeAt(rows, excluded, base, k)
    ensures !FreeAt(now, excluded, base, k)
  {
    var id := Candidate(base, k);
    if |id| <= MAX_LENGTH {
      CandidateIsId(base, k);
      var row :| row in rows && Blocks(row, excluded, id);
      var j :| 0 <= j < |rows| && rows[j] == row;
      assert now[j] in now && Blocks(now[j], excluded, id);
    }
  }

  lemma {:induction false} NoneStays(rows: Table, now: Table, excluded: Option<nat>, preferred: Option<string>)
    requires KeepsIds(rows, now) && Allocated(rows, excluded, preferred).None?
    ensures Allocated(now, excluded, preferred).None?
  {
    if preferred.Some? && IsPickerId(preferred.value) {
      var k := FirstFree(now, excluded, preferred.value, 1);
      if k <= MAX_SUFFIX {
        NothingFree(rows, excluded, preferred, k);
        BlockedStays(rows, now, excluded, preferred.value, k);
      }
    }
  }

  /** What is left to repair has no id, and none is free for it. */
  predicate Stuck(rows: Table, row: Row) {
    Allocated(rows, row.owner, row.slug).None? &&
    forall k | 0 <= k < |rows| && rows[k].owner == row.owner :: rows[k].picker.None?
  }

  lemma {:induction false} EndsNeedy(rows: Table, i: nat)
    requires i < |rows| && NothingToLose(rows) && NeedsId(HandedOut(rows, |rows|)[i])
    ensures NeedsId(rows[i])
    ensures HandedOut(rows, |rows|)[i].owner == rows[i].owner && HandedOut(rows, |rows|)[i].slug == rows[i].slug
  {
    OnlyIdsChange(rows, |rows|);
    ValidStaysTo(rows, 0, |rows|);
  }

  lemma {:induction false} EndsEmpty(rows: Table, i: nat, k: nat)
    requires i < |rows| && k < |rows| && NeedsId(rows[i]) && rows[k].owner == rows[i].owner
    requires !Valid(HandedOut(rows, |rows|)[i])
    ensures HandedOut(rows, |rows|)[k].picker.None?
  {
    if Doubled(rows, i) {
      DoubledLose(rows, i, |rows|, k);
    } else {
      SingleServed(rows, i, |rows|);
      AllocatedIsFree(HandedOut(rows, i), rows[i].owner, rows[i].slug);
      if k != i {
        NoOther(rows, i, k);
      }
    }
  }

  lemma {:induction false} EndsWithout(rows: Table, i: nat)
    requires i < |rows| && NeedsId(rows[i]) && NoneFreeInTurn(rows) && NothingToLose(rows)
    requires !Valid(HandedOut(rows, |rows|)[i])
    ensures Allocated(HandedOut(rows, |rows|), rows[i].owner, rows[i].slug).None?
  {
    if !Doubled(rows, i) {
      SingleServed(rows, i, |rows|);
      AllocatedIsFree(HandedOut(rows, i), rows[i].owner, rows[i].slug);
    }
    ValidStaysTo(rows, i, |rows|);
    NoneStays(HandedOut(rows, i), HandedOut(rows, |rows|), rows[i].owner, rows[i].slug);
  }

  lemma {:induction false} StuckAtEnd(rows: Table, i: nat)
    requires i < |rows| && NothingToLose(rows) && NoneFreeInTurn(rows)
    requires NeedsId(HandedOut(rows, |rows|)[i])
    ensures Stuck(HandedOut(rows, |rows|), HandedOut(rows, |rows|)[i])
  {
    var now := HandedOut(rows, |rows|);
    OnlyIdsChange(rows, |rows|);
    EndsNeedy(rows, i);
    EndsWithout(rows, i);
    forall k | 0 <= k < |rows| && now[k].owner == rows[i].owner
      ensures now[k].picker.None?
    {
      EndsEmpty(rows, i, k);
    }
  }

  lemma {:induction false} RepairNothing(rows: Table, todo: seq<Row>)
    requires Unique(rows) && forall row | row in todo :: row.owner.Some? && Stuck(rows, row)
    ensures Repaired(rows, todo) == Some(rows)
    decreases |todo|
  {
    if todo != [] {
      assert todo[0] in todo;
      assert RepairOne(rows, todo[0]) == rows;
      RepairNothing(rows, todo[1..]);
    }
  }

  lemma {:induction false} NothingLeft(rows: Table)
    requires Unique(rows) && NothingToLose(rows) && NoneFreeInTurn(rows)
    ensures Reconciled(HandedOut(rows, |rows|)) == Some(HandedOut(rows, |rows|))
  {
    var now := HandedOut(rows, |rows|);
    OnlyIdsChange(rows, |rows|);
    HandedUnique(rows, |rows|);
    PendingIs(now);
    forall row | row in Pending(now)
      ensures row.owner.Some? && Stuck(now, row)
    {
      var i :| 0 <= i < |now| && now[i] == row;
      StuckAtEnd(rows, i);
    }
    RepairNothing(now, Pending(now));
  }

  /** A valid id next to an entry to repair is erased. */
  lemma {:induction false} LostId(rows: Table, i: nat, j: nat)
    requires i < |rows| && j < |rows| && NeedsId(rows[i]) && rows[j].owner == rows[i].owner && Valid(rows[j])
    ensures !KeepsIds(rows, HandedOut(rows, |rows|))
  {
    assert Doubled(rows, i) by {
      assert i != j && rows[i].owner == rows[j].owner == Some(rows[i].owner.value);
    }
    DoubledLose(rows, i, |rows|, j);
  }

  /** A repair that goes through, keeps every valid id and leaves nothing for a second one. */
  ghost predicate RepairsForGood(rows: Table) {
    var first := Reconciled(rows);
    first.Some? && Reconciled(first.value) == first && KeepsIds(rows, first.value)
  }

  /** The repair is for good exactly if no id is free for a model with a second entry when its
      turn comes, and no model to repair has a valid id on another entry. */
  lemma {:induction false} RepairForGoodIff(rows: Table)
    requires Unique(rows)
    ensures RepairsForGood(rows) <==> NoneFreeInTurn(rows) && NothingToLose(rows)
  {
    RepairIff(rows);
    if NoneFreeInTurn(rows) && NothingToLose(rows) {
      NothingLeft(rows);
      ValidStaysTo(rows, 0, |rows|);
    } else if NoneFreeInTurn(rows) {
      var i, j :| 0 <= i < |rows| && 0 <= j < |rows| && NeedsId(rows[i]) && rows[j].owner == rows[i].owner &&
          Valid(rows[j]);
      LostId(rows, i, j);
    }
  }

  /** With one entry for each model to repair, each gets the id allocated in its turn. */
  lemma {:induction false} SingleEntriesRepaired(rows: Table)
    requires Unique(rows) && forall i | 0 <= i < |rows| :: !Doubled(rows, i)
    ensures RepairsForGood(rows)
    ensures forall i | 0 <= i < |rows| && NeedsId(rows[i]) ::
              Reconciled(rows).value[i].picker == Allocated(HandedOut(rows, i), rows[i].owner, rows[i].slug)
  {
    forall i, j | 0 <= i < |rows| && 0 <= j < |rows| && NeedsId(rows[i]) && rows[j].owner == rows[i].owner
      ensures !Valid(rows[j])
    {
      assert !Doubled(rows, i);
      assert !(i < j) && !(j < i);
    }
    RepairForGoodIff(rows);
    RepairIff(rows);
    forall i | 0 <= i < |rows| && NeedsId(rows[i])
      ensures HandedOut(rows, |rows|)[i].picker == Allocated(HandedOut(rows, i), rows[i].owner, rows[i].slug)
    {
      SingleServed(rows, i, |rows|);
    }
  }

  // ---- Tables of ordinary size ----

  lemma {:induction false} DecimalDiffers(a: nat, b: nat)
    requires a != b
    ensures Decimal(a) != Decimal(b)
  {
    var x, y := Decimal(a), Decimal(b);
    assert x[|x| - 1] == "0123456789"[a % 10] && y[|y| - 1] == "0123456789"[b % 10];
    if a < 10 && b >= 10 {
      DecimalChars(b / 10);
    } else if b < 10 && a >= 10 {
      DecimalChars(a / 10);
    } else if a >= 10 && a % 10 == b % 10 {
      DecimalDiffers(a / 10, b / 10);
      assert x[..|x| - 1] == Decimal(a / 10) && y[..|y| - 1] == Decimal(b / 10);
    }
  }

  lemma {:induction false} DecimalShort(n: nat)
    requires n <= MAX_SUFFIX
    ensures |Decimal(n)| <= 3
  {
    if n >= 100 {
      assert |Decimal(n / 100)| == 1 && |Decimal(n / 10)| == 2;
    } else if n >= 10 {
      assert |Decimal(n / 10)| == 1;
    }
  }

  lemma {:induction false} CandidateDiffers(base: string, j: nat, k: nat)
    requires 1 <= j < k
    ensures Candidate(base, j) != Candidate(base, k)
  {
    DecimalChars(k);
    if j > 1 {
      DecimalDiffers(j, k);
      var x, y := Candidate(base, j), Candidate(base, k);
      assert x[|base| + 1..] == Decimal(j) && y[|base| + 1..] == Decimal(k);
    }
  }

  function IdsOf(rows: Table): (ids: set<string>)
    ensures |ids| <= |rows|
  {
    if rows == [] then {}
    else
      var rest := IdsOf(rows[1..]);
      if rows[0].picker.Some? then rest + {rows[0].picker.value} else rest
  }

  lemma {:induction false} IdIn(rows: Table, row: Row)
    requires row in rows && row.picker.Some?
    ensures row.picker.value in IdsOf(rows)
  {
    if rows[0] != row {
      IdIn(rows[1..], row);
    }
  }

  function Candidates(base: string, n: nat): set<string> {
    if n == 0 then {} else Candidates(base, n - 1) + {Candidate(base, n)}
  }

  lemma {:induction false} CandidateNew(base: string, n: nat, k: nat)
    requires n < k
    ensures Candidate(base, k) !in Candidates(base, n)
  {
    if n > 0 {
      CandidateNew(base, n - 1, k);
      CandidateDiffers(base, n, k);
    }
  }

  lemma {:induction false} CandidateCount(base: string, n: nat)
    ensures |Candidates(base, n)| == n
  {
    if n > 0 {
      CandidateCount(base, n - 1);
      CandidateNew(base, n - 1, n);
    }
  }

  lemma {:induction false} CandidateFits(base: string, n: nat)
    requires 1 <= n <= MAX_SUFFIX && |base| <= ROOMY
    ensures |Candidate(base, n)| <= MAX_LENGTH
  {
    DecimalShort(n);
  }

  lemma {:induction false} TakenIn(rows: Table, excluded: Option<nat>, base: string, n: nat)
    requires !FreeAt(rows, excluded, base, n) && |Candidate(base, n)| <= MAX_LENGTH
    ensures Candidate(base, n) in IdsOf(rows)
  {
    var row :| row in rows && Blocks(row, excluded, Candidate(base, n));
    IdIn(rows, row);
  }

  lemma {:induction false} AllTaken(rows: Table, excluded: Option<nat>, base: string, n: nat)
    requires n <= MAX_SUFFIX && |base| <= ROOMY && IsPickerId(base)
    requires Allocated(rows, excluded, Some(base)).None?
    ensures Candidates(base, n) <= IdsOf(rows)
  {
    if n > 0 {
      AllTaken(rows, excluded, base, n - 1);
      OneTaken(rows, excluded, base, n);
    }
  }

  lemma {:induction false} OneTaken(rows: Table, excluded: Option<nat>, base: string, n: nat)
    requires 1 <= n <= MAX_SUFFIX && |base| <= ROOMY && IsPickerId(base)
    requires Allocated(rows, excluded, Some(base)).None?
    ensures Candidate(base, n) in IdsOf(rows)
  {
    NothingFree(rows, excluded, Some(base), n);
    CandidateFits(base, n);
    TakenIn(rows, excluded, base, n);
  }

  /** An id that leaves room for every suffix. */
  const ROOMY := MAX_LENGTH - 4

  lemma {:induction false} SubsetCount(a: set<string>, b: set<string>)
    requires a <= b
    ensures |a| <= |b|
  {
    assert b == a + (b - a);
  }

  /** In a table with fewer rows than candidates one is always free. */
  lemma {:induction false} SmallTableFree(rows: Table, excluded: Option<nat>, slug: string)
    requires |rows| < MAX_SUFFIX && |slug| <= ROOMY && IsPickerId(slug)
    ensures Allocated(rows, excluded, Some(slug)).Some?
  {
    if Allocated(rows, excluded, Some(slug)).None? {
      AllTaken(rows, excluded, slug, MAX_SUFFIX);
      CandidateCount(slug, MAX_SUFFIX);
      SubsetCount(Candidates(slug, MAX_SUFFIX), IdsOf(rows));
    }
  }

  predicate Usable(slug: Option<string>) {
    slug.Some? && IsPickerId(slug.value)
  }

  /** In a table of fewer than 999 rows whose slugs leave room for a suffix, the repair goes
      through exactly if no model with a second entry has a slug that could serve as its id. */
  lemma {:induction false} SmallTableRepairIff(rows: Table)
    requires Unique(rows) && |rows| < MAX_SUFFIX
    requires forall i | 0 <= i < |rows| && Usable(rows[i].slug) :: |rows[i].slug.value| <= ROOMY
    ensures Reconciled(rows).Some? <==> forall i | 0 <= i < |rows| && Doubled(rows, i) :: !Usable(rows[i].slug)
  {
    RepairIff(rows);
    forall i | 0 <= i < |rows| && Doubled(rows, i)
      ensures Allocated(HandedOut(rows, i), rows[i].owner, rows[i].slug).None? <==> !Usable(rows[i].slug)
    {
      if Usable(rows[i].slug) {
        SmallTableFree(HandedOut(rows, i), rows[i].owner, rows[i].slug.value);
      }
    }
  }

  // ---- A repair that is not for good ----

  lemma {:induction false} TooLong(rows: Table, excluded: Option<nat>, slug: string, k: nat)
    requires |slug| == MAX_LENGTH && k >= 2
    ensures !FreeAt(rows, excluded, slug, k)
  {
    DecimalChars(k);
  }

  lemma {:induction false} LongSlug(rows: Table, excluded: Option<nat>, slug: string)
    requires IsPickerId(slug) && |slug| == MAX_LENGTH
    ensures Allocated(rows, excluded, Some(slug)) == if Used(rows, excluded, slug) then None else Some(slug)
  {
    forall k: nat | k >= 2
      ensures !FreeAt(rows, excluded, slug, k)
    {
      TooLong(rows, excluded, slug, k);
    }
    assert FreeAt(rows, excluded, slug, 1) <==> !Used(rows, excluded, slug);
  }

  /** Model 1 wants the long id that an entry of model 2 has; model 2 has a second entry that
      is to be repaired, and a slug that cannot serve as an id. */
  function ErasingTable(slug: string): Table {
    [Row(Some(1), None, true, Some(slug)), Row(Some(2), None, true, Some("@cf/x")),
        Row(Some(2), Some(slug), true, Some("@cf/x"))]
  }

  /** An entry of model 2 loses its valid id. */
  function ErasedTable(slug: string): Table {
    [ErasingTable(slug)[0], ErasingTable(slug)[1], ErasingTable(slug)[2].(picker := None)]
  }

  lemma {:induction false} ErasingTurns(slug: string)
    requires IsPickerId(slug) && |slug| == MAX_LENGTH
    ensures var rows := ErasingTable(slug);
            Unique(rows) && Doubled(rows, 1) && Doubled(rows, 2) == false && NeedsId(rows[0]) && !Doubled(rows, 0)
  {
    var rows := ErasingTable(slug);
    assert rows[1].owner == rows[2].owner == Some(2);
  }

  lemma {:induction false} ErasingHandsOut(slug: string)
    requires IsPickerId(slug) && |slug| == MAX_LENGTH
    ensures var rows := ErasingTable(slug);
            HandedOut(rows, 1) == rows && HandedOut(rows, 3) == ErasedTable(slug) && NoneFreeInTurn(rows)
  {
    var rows := ErasingTable(slug);
    ErasingTurns(slug);
    assert Blocks(rows[2], Some(1), slug);
    LongSlug(rows, Some(1), slug);
    assert SetPicker(rows, 1, None) == rows;
    assert HandedOut(rows, 0) == rows;
    assert HandedOut(rows, 1) == rows;
    assert SetPicker(rows, 2, None) == ErasedTable(slug);
    assert HandedOut(rows, 2) == ErasedTable(slug);
    assert !PickerChar("@cf/x"[0]);
  }

  /** Then the freed id is there for model 1. */
  lemma {:induction false} ErasedHandsOut(slug: string)
    requires IsPickerId(slug) && |slug| == MAX_LENGTH
    ensures HandedOut(ErasedTable(slug), 1)[0].picker == Some(slug)
    ensures NeedsId(ErasedTable(slug)[0]) && !Doubled(ErasedTable(slug), 0)
  {
    var rows := ErasedTable(slug);
    LongSlug(rows, Some(1), slug);
    assert forall k | 0 <= k < |rows| :: rows[k].picker.None?;
    OwnTurn(rows, 0);
  }

  /** The first repair goes through and erases a valid id; the second gives it to another model. */
  lemma {:induction false} SecondRepairChanges(slug: string)
    requires IsPickerId(slug) && |slug| == MAX_LENGTH
    ensures var rows, erased := ErasingTable(slug), ErasedTable(slug);
            && Unique(rows) && Reconciled(rows) == Some(erased) && !KeepsIds(rows, erased)
            && Reconciled(erased) != Some(erased)
  {
    var rows, erased := ErasingTable(slug), ErasedTable(slug);
    ErasingTurns(slug);
    ErasingHandsOut(slug);
    RepairIff(rows);
    assert Valid(rows[2]) && erased[2] != rows[2];
    ErasedHandsOut(slug);
    SingleServed(erased, 0, 3);
    ErasedUnique(slug);
    RepairIff(erased);
  }

  lemma {:induction false} ErasedUnique(slug: string)
    ensures Unique(ErasedTable(slug))
  {
  }

  /** There is such an id. */
  lemma {:induction false} LongId() returns (slug: string)
    ensures IsPickerId(slug) && |slug| == MAX_LENGTH
  {
    slug := seq(MAX_LENGTH, _ => 'a');
  }
}
