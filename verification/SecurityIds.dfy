/** Permanent security ids: a known symbol keeps its id, a new one gets the next number. */
module SecurityIds {

  /** `R1000-SEC-` and a number padded to six digits, or any other text. */
  datatype SecurityId = Numbered(n: nat) | OtherId(text: string)

  const SIX_DIGITS := 999999

  /** Only numbers of exactly six digits are recognised when ids are read back. */
  predicate Recognised(id: SecurityId) {
    id.Numbered? && id.n <= SIX_DIGITS
  }

  /** `next` is one more than the highest recognised number. */
  ghost predicate IsNext(ids: map<string, SecurityId>, next: nat) {
    && next >= 1
    && (forall s :: s in ids && Recognised(ids[s]) ==> ids[s].n < next)
    && (next == 1 || exists s :: s in ids && ids[s] == Numbered(next - 1) && Recognised(ids[s]))
  }

  method NextSecurityId(ids: map<string, SecurityId>) returns (next: nat)
    ensures IsNext(ids, next)
  {
    var highest := 0;
    var rest := ids.Keys;
    while rest != {}
      invariant rest <= ids.Keys
      invariant forall s :: s in ids.Keys - rest && Recognised(ids[s]) ==> ids[s].n <= highest
      invariant highest == 0 || exists s :: s in ids && ids[s] == Numbered(highest) && Recognised(ids[s])
      decreases |rest|
    {
      var s :| s in rest;
      if Recognised(ids[s]) && ids[s].n > highest {
        highest := ids[s].n;
      }
      rest := rest - {s};
    }
    next := highest + 1;
  }

  /** The ids after the holdings have been seen: each new symbol takes the next number. */
  function Assigned(ids: map<string, SecurityId>, holdings: seq<string>, next: nat): map<string, SecurityId> {
    if holdings == [] then ids
    else
      var n := |holdings| - 1;
      var before := Assigned(ids, holdings[..n], next);
      if holdings[n] in before then before
      else before[holdings[n] := Numbered(next + NewSymbols(ids, holdings[..n]))]
  }

  /** How many of the holdings are new, each counted once. */
  function NewSymbols(ids: map<string, SecurityId>, holdings: seq<string>): nat {
    |set s | s in holdings && s !in ids|
  }

  lemma {:induction false} OneMoreHolding(ids: map<string, SecurityId>, holdings: seq<string>)
    requires holdings != []
    ensures var n := |holdings| - 1;
      NewSymbols(ids, holdings) == NewSymbols(ids, holdings[..n]) +
        if holdings[n] !in ids && holdings[n] !in holdings[..n] then 1 else 0
  {
    var n := |holdings| - 1;
    var (before, after) := (set s | s in holdings[..n] && s !in ids, set s | s in holdings && s !in ids);
    assert holdings == holdings[..n] + [holdings[n]];
    if holdings[n] !in ids && holdings[n] !in holdings[..n] {
      assert after == before + {holdings[n]};
    } else {
      assert after == before;
    }
  }

  /** A new symbol's number: one of the numbers from `next` on, as many as there are new symbols. */
  ghost predicate IsNew(ids: map<string, SecurityId>, holdings: seq<string>, next: nat, id: SecurityId) {
    id.Numbered? && next <= id.n < next + NewSymbols(ids, holdings)
  }

  /** Known symbols keep their ids, every holding has one, and each new one is a next number. */
  lemma {:induction false} AssignedMeaning(ids: map<string, SecurityId>, holdings: seq<string>, next: nat)
    ensures var after := Assigned(ids, holdings, next);
      && (forall s :: s in after <==> s in ids || s in holdings)
      && (forall s :: s in ids ==> after[s] == ids[s])
      && (forall s :: s in after && s !in ids ==> IsNew(ids, holdings, next, after[s]))
  {
    if holdings != [] {
      var n := |holdings| - 1;
      AssignedMeaning(ids, holdings[..n], next);
      OneMoreHolding(ids, holdings);
      assert holdings == holdings[..n] + [holdings[n]];
    }
  }

  /** No next number is given twice. */
  lemma {:induction false} NewOnesDiffer(ids: map<string, SecurityId>, holdings: seq<string>, next: nat)
    ensures var after := Assigned(ids, holdings, next);
      forall s, s' :: s in after && s' in after && s !in ids && s' !in ids && s != s' ==> after[s] != after[s']
  {
    if holdings != [] {
      var n := |holdings| - 1;
      NewOnesDiffer(ids, holdings[..n], next);
      AssignedMeaning(ids, holdings[..n], next);
    }
  }

  lemma NoneAreNew(ids: map<string, SecurityId>)
    ensures NewSymbols(ids, []) == 0
  {
    assert (set s | s in [] && s !in ids) == {};
  }

  /** No next number is left out. */
  lemma {:induction false} NumberIsGiven(ids: map<string, SecurityId>, holdings: seq<string>, next: nat, m: nat)
    requires next <= m < next + NewSymbols(ids, holdings)
    ensures exists s ::
      s in Assigned(ids, holdings, next) && s !in ids && Assigned(ids, holdings, next)[s] == Numbered(m)
  {
    if holdings == [] {
      NoneAreNew(ids);
    } else {
      var n := |holdings| - 1;
      var (before, after) := (Assigned(ids, holdings[..n], next), Assigned(ids, holdings, next));
      OneMoreHolding(ids, holdings);
      AssignedMeaning(ids, holdings[..n], next);
      if m < next + NewSymbols(ids, holdings[..n]) {
        NumberIsGiven(ids, holdings[..n], next, m);
        var s :| s in before && s !in ids && before[s] == Numbered(m);
        assert s in after && after[s] == Numbered(m);
      } else {
        assert holdings[n] in after && after[holdings[n]] == Numbered(m);
      }
    }
  }

  ghost predicate Distinct(ids: map<string, SecurityId>) {
    forall s, s' :: s in ids && s' in ids && s != s' ==> ids[s] != ids[s']
  }

  /** Ids stay distinct exactly when no id on record already has one of the new numbers; since
      the recognised ones are all below, only a number past six digits can be in the way. */
  lemma DistinctIffNotTaken(ids: map<string, SecurityId>, holdings: seq<string>, next: nat)
    requires Distinct(ids) && IsNext(ids, next)
    ensures Distinct(Assigned(ids, holdings, next)) <==>
      forall s :: s in ids && ids[s].Numbered? && ids[s].n > SIX_DIGITS ==> !IsNew(ids, holdings, next, ids[s])
  {
    var after := Assigned(ids, holdings, next);
    AssignedMeaning(ids, holdings, next);
    NewOnesDiffer(ids, holdings, next);
    if s :| s in ids && ids[s].Numbered? && ids[s].n > SIX_DIGITS && IsNew(ids, holdings, next, ids[s]) {
      NumberIsGiven(ids, holdings, next, ids[s].n);
      var s' :| s' in after && s' !in ids && after[s'] == Numbered(ids[s].n);
      assert after[s] == after[s'] && s != s';
    }
  }

  /** The millionth id is not recognised when read back, so it is given out again. */
  lemma SeventhDigitCollides(last: string, over: string, fresh_: string)
    requires last != over && fresh_ != last && fresh_ != over
    ensures var ids := map[last := Numbered(999999), over := Numbered(1000000)];
      IsNext(ids, 1000000) && Assigned(ids, [fresh_], 1000000)[fresh_] == ids[over]
  {
    var ids := map[last := Numbered(999999), over := Numbered(1000000)];
    assert ids[last] == Numbered(999999);
    assert [fresh_][..0] == [];
    assert (set s | s in [] && s !in ids) == {};
  }

  lemma AssignedStep(ids: map<string, SecurityId>, holdings: seq<string>, i: nat, next: nat)
    requires i < |holdings|
    ensures var before := Assigned(ids, holdings[..i], next);
      && Assigned(ids, holdings[..i + 1], next) ==
        (if holdings[i] in before then before
         else before[holdings[i] := Numbered(next + NewSymbols(ids, holdings[..i]))])
      && NewSymbols(ids, holdings[..i + 1]) == NewSymbols(ids, holdings[..i]) + if holdings[i] in before then 0 else 1
  {
    assert holdings[..i + 1][..i] == holdings[..i];
    OneMoreHolding(ids, holdings[..i + 1]);
    AssignedMeaning(ids, holdings[..i], next);
  }

  ghost predicate Covers(result: map<string, SecurityId>, all: map<string, SecurityId>, holdings: seq<string>) {
    && (forall s :: s in result <==> s in holdings)
    && (forall s :: s in result ==> s in all && result[s] == all[s])
  }

  /** assign_security_ids. */
  method AssignSecurityIds(holdings: seq<string>, ids: map<string, SecurityId>) returns (result: map<string,
                           SecurityId>)
    ensures exists next: nat :: IsNext(ids, next) && Covers(result, Assigned(ids, holdings, next), holdings)
  {
    var table := ids;
    var nextId := NextSecurityId(ids);
    ghost var next := nextId;
    for i := 0 to |holdings|
      invariant table == Assigned(ids, holdings[..i], next) && nextId == next + NewSymbols(ids, holdings[..i])
    {
      AssignedStep(ids, holdings, i, next);
      if holdings[i] !in table {
        table := table[holdings[i] := Numbered(nextId)];
        nextId := nextId + 1;
      }
    }
    assert holdings[..|holdings|] == holdings;
    AssignedMeaning(ids, holdings, next);
    result := map s | s in holdings :: table[s];
    assert Covers(result, Assigned(ids, holdings, next), holdings);
  }
}
