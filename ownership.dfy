/**
 * Ownership resolution: an output belongs to a tracked account when the hash
 * of its control program is registered, the registered record decodes, and
 * the account it names still exists.
 */
module Ownership {
  import opened Wrappers
  import opened Ledger
  import opened Account
  import opened Storage
  import opened Extraction

  /** An output annotated with the account that owns it (`accountOutput`). */
  datatype AccountOutput = AccountOutput(raw: RawOutput, accountId: string, keyIndex: nat, change: bool) {
    function Owner(): (cp: CtrlProgram) {
      CtrlProgram(accountId, keyIndex, change)
    }
  }

  /**
   * What the indexer sees of the wallet: its committed store and the library
   * functions it calls, which the model leaves abstract — the SHA3-256 hash of a
   * script, the JSON decoding of a registered control program (which may fail)
   * and the JSON encoding of a persisted record (which may fail).
   */
  datatype Wallet = Wallet(
    db: Table,
    sum256: Bytes -> Hash,
    decodeCtrlProgram: Bytes -> Option<CtrlProgram>,
    encodeUTXO: UTXO -> Option<Bytes>)

  /**
   * The registry lookup for one script: None when the hash of the script has no
   * registered record, when the record does not decode, or when the account it
   * names is absent from the store.
   */
  function Resolve(w: Wallet, script: Bytes): (cp: Option<CtrlProgram>) {
    match Get(w.db, AccountCPKey(w.sum256(script)))
    case None => None
    case Some(bytes) =>
      match w.decodeCtrlProgram(bytes)
      case None => None
      case Some(cp) => if Get(w.db, AccountKey(cp.accountId)).Some? then Some(cp) else None
  }

  /**
   * The registry and the UTXO records share one store; a batch that only
   * touches UTXO records leaves every lookup as it was.
   */
  lemma ResolveIgnoresUTXORecords(w: Wallet, ops: seq<Op>, script: Bytes)
    requires forall i | 0 <= i < |ops| :: ops[i].key.AccountUTXOKey?
    ensures Resolve(w.(db := Apply(w.db, ops)), script) == Resolve(w, script)
  {
    ApplyUntouched(w.db, ops, AccountCPKey(w.sum256(script)));
    match Get(w.db, AccountCPKey(w.sum256(script)))
    case None =>
    case Some(bytes) =>
      match w.decodeCtrlProgram(bytes)
      case None =>
      case Some(cp) => ApplyUntouched(w.db, ops, AccountKey(cp.accountId));
  }

  function Annotate(o: RawOutput, cp: CtrlProgram): (a: AccountOutput) {
    AccountOutput(o, cp.accountId, cp.keyIndex, cp.change)
  }

  /** The annotation of one output: itself with its owner, or nothing. */
  function Owned(w: Wallet, o: RawOutput): (owned: seq<AccountOutput>) {
    match Resolve(w, o.controlProgram)
    case None => []
    case Some(cp) => [Annotate(o, cp)]
  }

  /** Reference definition of ownership resolution, output by output in input order. */
  function AccountOutputs(w: Wallet, outs: seq<RawOutput>): (owned: seq<AccountOutput>)
    decreases |outs|
  {
    if outs == [] then [] else AccountOutputs(w, outs[..|outs| - 1]) + Owned(w, outs[|outs| - 1])
  }

  /** The outputs whose script is in `scripts`, in order. */
  function WithScripts(outs: seq<RawOutput>, scripts: set<Bytes>): (kept: seq<RawOutput>)
    decreases |outs|
  {
    if outs == [] then []
    else WithScripts(outs[..|outs| - 1], scripts) +
         (if outs[|outs| - 1].controlProgram in scripts then [outs[|outs| - 1]] else [])
  }

  /** The outputs that share script `s`, in order. */
  function Group(outs: seq<RawOutput>, s: Bytes): (group: seq<RawOutput>) {
    WithScripts(outs, {s})
  }

  /** The outputs grouped by script bytes, each group in input order. */
  function GroupByScript(outs: seq<RawOutput>): (groups: map<Bytes, seq<RawOutput>>)
    decreases |outs|
  {
    if outs == [] then map[]
    else
      var m, o := GroupByScript(outs[..|outs| - 1]), outs[|outs| - 1];
      m[o.controlProgram := (if o.controlProgram in m then m[o.controlProgram] else []) + [o]]
  }

  // ---- properties of the reference definition ----

  /**
   * An annotated output is in the result exactly when its output was given
   * (unchanged) and its script resolves to the owner it carries.
   */
  lemma {:induction false} AccountOutputsSpec(w: Wallet, outs: seq<RawOutput>, a: AccountOutput)
    ensures a in AccountOutputs(w, outs) <==> a.raw in outs && Resolve(w, a.raw.controlProgram) == Some(a.Owner())
  {
    if outs != [] {
      var init := outs[..|outs| - 1];
      AccountOutputsSpec(w, init, a);
      assert outs == init + [outs[|outs| - 1]];
    }
  }

  /** An output is kept exactly when its script resolves; dropping is the only way the result shrinks. */
  lemma AccountOutputsKeep(w: Wallet, outs: seq<RawOutput>, o: RawOutput)
    requires o in outs
    ensures (exists a :: a in AccountOutputs(w, outs) && a.raw == o) <==> Resolve(w, o.controlProgram).Some?
  {
    if Resolve(w, o.controlProgram).Some? {
      var a := Annotate(o, Resolve(w, o.controlProgram).value);
      AccountOutputsSpec(w, outs, a);
    }
    forall a | a in AccountOutputs(w, outs) && a.raw == o ensures Resolve(w, o.controlProgram).Some? {
      AccountOutputsSpec(w, outs, a);
    }
  }

  /** The result never has more elements than the input. */
  lemma {:induction false} AccountOutputsBound(w: Wallet, outs: seq<RawOutput>)
    ensures |AccountOutputs(w, outs)| <= |outs|
  {
    if outs != [] {
      AccountOutputsBound(w, outs[..|outs| - 1]);
    }
  }

  /** Outputs with byte-identical scripts get the same account, key index and change flag. */
  lemma SameScriptSameOwner(w: Wallet, outs: seq<RawOutput>, a1: AccountOutput, a2: AccountOutput)
    requires a1 in AccountOutputs(w, outs) && a2 in AccountOutputs(w, outs)
    requires a1.raw.controlProgram == a2.raw.controlProgram
    ensures a1.accountId == a2.accountId && a1.keyIndex == a2.keyIndex && a1.change == a2.change
  {
    AccountOutputsSpec(w, outs, a1);
    AccountOutputsSpec(w, outs, a2);
  }

  /** Outputs with byte-identical scripts are kept together or dropped together. */
  lemma SameScriptDroppedTogether(w: Wallet, outs: seq<RawOutput>, o1: RawOutput, o2: RawOutput)
    requires o1 in outs && o2 in outs && o1.controlProgram == o2.controlProgram
    ensures (exists a :: a in AccountOutputs(w, outs) && a.raw == o1) <==>
            (exists a :: a in AccountOutputs(w, outs) && a.raw == o2)
  {
    AccountOutputsKeep(w, outs, o1);
    AccountOutputsKeep(w, outs, o2);
  }

  // ---- helpers for the grouped implementation ----

  lemma AccountOutputsAppend(w: Wallet, xs: seq<RawOutput>, o: RawOutput)
    ensures AccountOutputs(w, xs + [o]) == AccountOutputs(w, xs) + Owned(w, o)
  {
    assert (xs + [o])[..|xs|] == xs;
  }

  /** Splitting the scripts already handled from a new one splits the result multiset the same way. */
  lemma AppendOwnedStep(w: Wallet, group: seq<RawOutput>, k: nat, cp: CtrlProgram, before: seq<AccountOutput>, result: seq<AccountOutput>)
    requires k < |group| && Resolve(w, group[k].controlProgram) == Some(cp)
    requires result == before + AccountOutputs(w, group[..k])
    ensures result + [Annotate(group[k], cp)] == before + AccountOutputs(w, group[..k + 1])
  {
    assert group[..k + 1] == group[..k] + [group[k]];
    AccountOutputsAppend(w, group[..k], group[k]);
  }

  lemma {:induction false} AccountOutputsSplit(w: Wallet, outs: seq<RawOutput>, done: set<Bytes>, s: Bytes)
    requires s !in done
    ensures multiset(AccountOutputs(w, WithScripts(outs, done + {s}))) ==
            multiset(AccountOutputs(w, WithScripts(outs, done))) + multiset(AccountOutputs(w, Group(outs, s)))
  {
    if outs != [] {
      var init, o := outs[..|outs| - 1], outs[|outs| - 1];
      var both, others, group := WithScripts(init, done + {s}), WithScripts(init, done), WithScripts(init, {s});
      AccountOutputsSplit(w, init, done, s);
      assert IH: multiset(AccountOutputs(w, both)) ==
        multiset(AccountOutputs(w, others)) + multiset(AccountOutputs(w, group));
      if o.controlProgram == s {
        assert WithScripts(outs, done + {s}) == both + [o];
        assert WithScripts(outs, done) == others;
        assert Group(outs, s) == group + [o];
        AccountOutputsAppend(w, both, o);
        AccountOutputsAppend(w, group, o);
      } else if o.controlProgram in done {
        assert WithScripts(outs, done + {s}) == both + [o];
        assert WithScripts(outs, done) == others + [o];
        assert Group(outs, s) == group;
        AccountOutputsAppend(w, both, o);
        AccountOutputsAppend(w, others, o);
      } else {
        assert WithScripts(outs, done + {s}) == both;
        assert WithScripts(outs, done) == others;
        assert Group(outs, s) == group;
      }
    }
  }

  lemma GroupAppend(xs: seq<RawOutput>, o: RawOutput, s: Bytes)
    ensures Group(xs + [o], s) == Group(xs, s) + (if o.controlProgram == s then [o] else [])
  {
    assert (xs + [o])[..|xs|] == xs;
  }

  /**
   * The groups are keyed by exactly the scripts of the input, and each group
   * holds exactly the outputs with that script.
   */
  lemma {:induction false} GroupByScriptSpec(outs: seq<RawOutput>)
    ensures forall j | 0 <= j < |outs| :: outs[j].controlProgram in GroupByScript(outs)
    ensures forall s | s in GroupByScript(outs) :: exists j | 0 <= j < |outs| :: outs[j].controlProgram == s
    ensures forall s :: Group(outs, s) == (if s in GroupByScript(outs) then GroupByScript(outs)[s] else [])
  {
    if outs != [] {
      var init, o := outs[..|outs| - 1], outs[|outs| - 1];
      GroupByScriptSpec(init);
      assert outs == init + [o];
      forall s | s in GroupByScript(outs) ensures exists j | 0 <= j < |outs| :: outs[j].controlProgram == s {
        if s == o.controlProgram {
          assert outs[|outs| - 1].controlProgram == s;
        } else {
          var j :| 0 <= j < |init| && init[j].controlProgram == s;
          assert outs[j] == init[j];
        }
      }
      forall s ensures Group(outs, s) == (if s in GroupByScript(outs) then GroupByScript(outs)[s] else []) {
        GroupAppend(init, o, s);
      }
    }
  }

  /** Bucketing one more output appends it to the bucket of its script, creating that bucket if needed. */
  lemma GroupByScriptStep(outs: seq<RawOutput>, i: nat)
    requires i < |outs|
    ensures var m, o := GroupByScript(outs[..i]), outs[i];
            GroupByScript(outs[..i + 1]) == m[o.controlProgram := (if o.controlProgram in m then m[o.controlProgram] else []) + [o]]
  {
    assert outs[..i + 1][..i] == outs[..i];
  }

  /** Together, the groups hold every output. */
  lemma GroupByScriptCovers(outs: seq<RawOutput>)
    ensures WithScripts(outs, GroupByScript(outs).Keys) == outs
  {
    GroupByScriptSpec(outs);
    WithScriptsAll(outs, GroupByScript(outs).Keys);
  }

  /** The group stored under script `s` is the outputs with that script. */
  lemma GroupByScriptAt(outs: seq<RawOutput>, s: Bytes)
    requires s in GroupByScript(outs)
    ensures GroupByScript(outs)[s] == Group(outs, s)
  {
    GroupByScriptSpec(outs);
  }

  /** Every output of the group stored under script `s` carries `s`. */
  lemma GroupByScriptShares(outs: seq<RawOutput>, s: Bytes)
    requires s in GroupByScript(outs)
    ensures forall j | 0 <= j < |GroupByScript(outs)[s]| :: GroupByScript(outs)[s][j].controlProgram == s
  {
    GroupByScriptAt(outs, s);
    GroupScripts(outs, s);
  }

  /** Skipping a script that does not resolve keeps the result equal to the reference for the scripts handled. */
  lemma SkipUnresolved(w: Wallet, outs: seq<RawOutput>, done: set<Bytes>, s: Bytes, result: seq<AccountOutput>)
    requires s !in done && s in GroupByScript(outs) && Resolve(w, s).None?
    requires multiset(result) == multiset(AccountOutputs(w, WithScripts(outs, done)))
    ensures multiset(result) == multiset(AccountOutputs(w, WithScripts(outs, done + {s})))
  {
    AccountOutputsSplit(w, outs, done, s);
    GroupByScriptAt(outs, s);
    GroupScripts(outs, s);
    AccountOutputsUnresolved(w, Group(outs, s), s);
  }

  /** Appending the annotated group of a resolving script keeps the result equal to the reference for the scripts handled. */
  lemma AppendResolved(w: Wallet, outs: seq<RawOutput>, done: set<Bytes>, s: Bytes, before: seq<AccountOutput>, result: seq<AccountOutput>)
    requires s !in done && s in GroupByScript(outs)
    requires multiset(before) == multiset(AccountOutputs(w, WithScripts(outs, done)))
    requires result == before + AccountOutputs(w, GroupByScript(outs)[s])
    ensures multiset(result) == multiset(AccountOutputs(w, WithScripts(outs, done + {s})))
  {
    AccountOutputsSplit(w, outs, done, s);
    GroupByScriptAt(outs, s);
  }

  lemma {:induction false} GroupScripts(outs: seq<RawOutput>, s: Bytes)
    ensures forall o | o in Group(outs, s) :: o.controlProgram == s
  {
    if outs != [] {
      GroupScripts(outs[..|outs| - 1], s);
    }
  }

  /** A group whose common script does not resolve contributes nothing. */
  lemma {:induction false} AccountOutputsUnresolved(w: Wallet, xs: seq<RawOutput>, s: Bytes)
    requires forall o | o in xs :: o.controlProgram == s
    requires Resolve(w, s).None?
    ensures AccountOutputs(w, xs) == []
  {
    if xs != [] {
      var init := xs[..|xs| - 1];
      assert forall o | o in init :: o in xs;
      AccountOutputsUnresolved(w, init, s);
    }
  }

  lemma {:induction false} WithScriptsNone(outs: seq<RawOutput>)
    ensures WithScripts(outs, {}) == []
  {
    if outs != [] {
      WithScriptsNone(outs[..|outs| - 1]);
    }
  }

  lemma {:induction false} WithScriptsAll(outs: seq<RawOutput>, scripts: set<Bytes>)
    requires forall j | 0 <= j < |outs| :: outs[j].controlProgram in scripts
    ensures WithScripts(outs, scripts) == outs
  {
    if outs != [] {
      WithScriptsAll(outs[..|outs| - 1], scripts);
    }
  }
}
