/**
 Durable preimages and retention.

 The backup directory of one patch is a map from names to entries; names are ranked by their sort order.
 Every file operation may fail, and the process may stop after any of them: the history records the
 directory after each change, so a claim about every recorded state is a claim about every crash point.
 Which operations fail is fixed from outside, moment by moment, so a claim about calm moments cannot be
 evaded by the code.
 */
module Backups {
  import opened Models
  import opened Outside

  /** One backup directory: its two files, whether anything else is in it, and whether it was synced. */
  datatype Entry = Entry(target: Option<string>, metadata: Option<bool>, clutter: bool, durable: bool)
  {
    /** Exactly the two files, with readable metadata of this patch. */
    predicate Complete() {
      target.Some? && metadata == Some(true) && !clutter
    }
  }

  type Entries = map<nat, Entry>

  /** The complete backups with a greater name. */
  function Newer(entries: Entries, name: nat): set<nat> {
    set n | n in entries && entries[n].Complete() && name < n
  }

  /** A complete backup among the greatest-named ones that retention keeps. */
  predicate Retained(entries: Entries, name: nat, retention: nat) {
    name in entries && entries[name].Complete() && |Newer(entries, name)| < retention
  }

  /** Nothing that retention keeps, and nothing incomplete, is lost or altered. */
  predicate Spares(before: Entries, after: Entries, retention: nat) {
    forall n | n in before && (Retained(before, n, retention) || !before[n].Complete()) ::
      n in after && after[n] == before[n]
  }

  /** While one backup is being made, the others stay, and it is complete only when it holds all of the bytes. */
  predicate Making(before: Entries, after: Entries, name: nat, data: string) {
    && after - {name} == before
    && (name in after && after[name].Complete() ==> after[name].target == Some(data))
  }

  lemma {:induction false} SubsetSize(a: set<nat>, b: set<nat>)
    requires a <= b
    ensures |a| <= |b|
  {
    if a != {} {
      var x :| x in a;
      SubsetSize(a - {x}, b - {x});
    }
  }

  predicate Increasing(names: seq<nat>) {
    forall i, j | 0 <= i < j < |names| :: names[i] < names[j]
  }

  function Members(names: seq<nat>): set<nat> {
    set n | n in names
  }

  lemma {:induction false} IncreasingSize(names: seq<nat>)
    requires Increasing(names)
    ensures |Members(names)| == |names|
  {
    if names != [] {
      var last := names[|names| - 1];
      IncreasingSize(names[..|names| - 1]);
      assert Members(names) == Members(names[..|names| - 1]) + {last};
    }
  }

  /** A complete backup with enough complete ones after it in sort order is not retained. */
  lemma OldIsNotRetained(entries: Entries, names: seq<nat>, i: nat, retention: nat)
    requires Increasing(names) && i + retention < |names|
    requires forall n | n in names :: n in entries && entries[n].Complete()
    ensures !Retained(entries, names[i], retention)
  {
    var later := names[i + 1..];
    IncreasingSize(later);
    forall n | n in later ensures n in Newer(entries, names[i]) {
      var k :| 0 <= k < |later| && later[k] == n;
      assert names[i + 1 + k] == n;
    }
    SubsetSize(Members(later), Newer(entries, names[i]));
  }

  lemma Append(names: seq<nat>, n: nat)
    requires Increasing(names) && forall m | m in Members(names) :: m < n
    ensures Increasing(names + [n]) && Members(names + [n]) == Members(names) + {n}
  {
    assert forall i | 0 <= i < |names| :: names[i] in Members(names);
  }

  /** With every complete backup listed, the last ones are retained. */
  lemma LastAreRetained(entries: Entries, names: seq<nat>, i: nat, retention: nat)
    requires Increasing(names) && i < |names| <= i + retention
    requires forall n :: n in names <==> n in entries && entries[n].Complete()
    ensures Retained(entries, names[i], retention)
  {
    var later := names[i + 1..];
    IncreasingSize(later);
    forall n | n in Newer(entries, names[i]) ensures n in Members(later) {
      var k :| 0 <= k < |names| && names[k] == n;
      assert later[k - i - 1] == n;
    }
    SubsetSize(Newer(entries, names[i]), Members(later));
  }

  /** Of what was there, the first so many candidates are gone. */
  ghost predicate OnlyGone(before: Entries, after: Entries, candidates: seq<nat>, gone: nat) {
    && gone <= |candidates|
    && (forall n :: n in after <==> n in before && n !in candidates[..gone])
    && forall n | n in after :: after[n] == before[n]
  }

  /** With every complete backup listed in order, all but the last ones are those that retention does not keep. */
  lemma FirstAreNot(entries: Entries, names: seq<nat>, retention: nat, gone: nat, n: nat)
    requires Increasing(names) && forall m :: m in names <==> m in entries && entries[m].Complete()
    requires gone == if |names| <= retention then 0 else |names| - retention
    ensures Retained(entries, n, retention) <==> n in names && n !in names[..gone]
  {
    hide Increasing;
    if n in names {
      var k :| 0 <= k < |names| && names[k] == n;
      if k < gone {
        hide Retained;
        OldIsNotRetained(entries, names, k, retention);
        assert names[..gone][k] == n;
      } else {
        hide Retained;
        LastAreRetained(entries, names, k, retention);
        NotEarlier(names, k, gone);
      }
    }
  }

  lemma OneMoreGone(before: Entries, was: Entries, after: Entries, candidates: seq<nat>, i: nat)
    requires Increasing(candidates) && OnlyGone(before, was, candidates, i) && i < |candidates| && after == was - {candidates[i]}
    ensures OnlyGone(before, after, candidates, i + 1)
  {
    assert candidates[..i + 1] == candidates[..i] + [candidates[i]];
  }

  lemma NothingGone(entries: Entries, candidates: seq<nat>, retention: nat)
    ensures Spares(entries, entries, retention) && OnlyGone(entries, entries, candidates, 0)
  {
  }

  lemma LaterDiffer(names: seq<nat>, i: nat)
    requires Increasing(names) && i < |names|
    ensures forall k | i < k < |names| :: names[k] != names[i]
  {
  }

  /** Once the excess is gone, the complete backups left are the retained ones. */
  lemma ExactlyRetained(before: Entries, after: Entries, candidates: seq<nat>, excess: nat, retention: nat)
    requires Increasing(candidates) && forall m :: m in candidates <==> m in before && before[m].Complete()
    requires excess == if |candidates| <= retention then 0 else |candidates| - retention
    requires OnlyGone(before, after, candidates, excess)
    ensures forall n :: (n in after && after[n].Complete()) <==> Retained(before, n, retention)
  {
    hide Retained, Increasing;
    forall n ensures (n in after && after[n].Complete()) <==> Retained(before, n, retention) {
      FirstAreNot(before, candidates, retention, excess, n);
    }
  }

  lemma NotEarlier(names: seq<nat>, k: nat, gone: nat)
    requires Increasing(names) && gone <= k < |names|
    ensures names[k] !in names[..gone]
  {
  }

  class BackupStore {
    /** When an operation fails, and how many were tried. */
    const trouble: nat -> bool
    var moments: nat
    var entries: Entries
    /** The directory after every change made to it, first state first. */
    ghost var history: seq<Entries>

    ghost predicate Recorded() reads this {
      history != [] && history[|history| - 1] == entries
    }

    constructor (trouble: nat -> bool)
      ensures this.trouble == trouble && entries == map[] && history == [map[]] && Recorded()
    {
      this.trouble, moments, entries, history := trouble, 0, map[], [map[]];
    }

    /** Nothing went wrong since. */
    ghost predicate Calm(since: nat) reads this {
      Quiet(trouble, since, moments)
    }

    method Succeeds() returns (ok: bool)
      modifies this`moments
      ensures moments == old(moments) + 1 && ok == !trouble(old(moments))
    {
      ok := !trouble(moments);
      moments := moments + 1;
    }

    /** One directory operation: it may fail, and then nothing changes. */
    method Change(after: Entries) returns (ok: bool)
      requires Recorded()
      modifies this
      ensures Recorded()
      ensures ok ==> entries == after && history == old(history) + [after]
      ensures !ok ==> entries == old(entries) && history == old(history)
      ensures moments > old(moments) && (Calm(old(moments)) ==> ok)
    {
      ok := Succeeds();
      if ok {
        entries := after;
        history := history + [after];
      }
    }

    /**
     Create a complete, synced copy; on failure an incomplete one may stay behind. At every crash point the other
     entries are as before, and the new one counts as complete only with all of the bytes.
     */
    method Create(name: nat, data: string) returns (ok: bool)
      requires Recorded() && name !in entries
      modifies this
      ensures Recorded() && old(history) <= history
      ensures ok ==> entries == old(entries)[name := Entry(Some(data), Some(true), false, true)]
      ensures !ok ==> Making(old(entries), entries, name, data) && (name in entries ==> !entries[name].durable)
      ensures forall i | |old(history)| <= i < |history| :: Making(old(entries), history[i], name, data)
      ensures moments >= old(moments) && (Calm(old(moments)) ==> ok)
    {
      var partial: string := *;
      var empty := Entry(None, None, false, false);
      var stages := [
        empty, empty.(target := Some(partial)), empty.(target := Some(data)),
        empty.(target := Some(data), metadata := Some(false)), empty.(target := Some(data), metadata := Some(true)),
        Entry(Some(data), Some(true), false, true)];
      ghost var was := entries;
      ok := true;
      for k := 0 to |stages|
        invariant ok && Recorded() && old(history) <= history && moments >= old(moments)
        invariant k == 0 ==> entries == was && history == old(history)
        invariant k > 0 ==> entries == was[name := stages[k - 1]]
        invariant forall i | |old(history)| <= i < |history| :: Making(was, history[i], name, data)
      {
        assert was[name := stages[k]] - {name} == was;
        assert entries[name := stages[k]] == was[name := stages[k]];
        ok := Change(entries[name := stages[k]]);
        if !ok {
          assert k == 0 ==> entries - {name} == was;
          return;
        }
      }
    }

    /** The names in sort order. */
    method SortedNames() returns (names: seq<nat>)
      ensures Increasing(names) && Members(names) == entries.Keys
    {
      names := [];
      var rest := entries.Keys;
      while rest != {}
        invariant rest <= entries.Keys && Increasing(names)
        invariant Members(names) == entries.Keys - rest
        invariant forall n, m | n in Members(names) && m in rest :: n < m
      {
        var least := Least(rest);
        Append(names, least);
        names := names + [least];
        rest := rest - {least};
      }
    }

    /** The complete backups in sort order; one that cannot be read is passed over. */
    method CompleteBackups() returns (candidates: seq<nat>)
      modifies this`moments
      ensures Increasing(candidates) && moments >= old(moments)
      ensures forall n | n in candidates :: n in entries && entries[n].Complete()
      ensures Calm(old(moments)) ==> forall n | n in entries && entries[n].Complete() :: n in candidates
    {
      candidates := [];
      var names := SortedNames();
      for i := 0 to |names|
        invariant Increasing(candidates) && Members(candidates) <= Members(names[..i]) && moments >= old(moments)
        invariant forall n | n in candidates :: n in entries && entries[n].Complete()
        invariant Calm(old(moments)) ==> forall n | n in names[..i] && entries[n].Complete() :: n in candidates
      {
        assert names[..i + 1] == names[..i] + [names[i]] && names[i] in Members(names);
        var readable := Succeeds();
        if readable && entries[names[i]].Complete() {
          forall n | n in Members(candidates) ensures n < names[i] {
            assert n in Members(names[..i]);
          }
          Append(candidates, names[i]);
          candidates := candidates + [names[i]];
        }
      }
      assert names[..|names|] == names;
      assert forall n | n in entries :: n in Members(names);
    }

    /** Remove one complete backup: its two files in either order, then its directory. */
    method Remove(name: nat, ghost before: Entries, retention: nat) returns (ok: bool)
      requires Recorded() && name in entries && entries[name].Complete()
      requires name in before && before[name].Complete() && !Retained(before, name, retention)
      requires Spares(before, entries, retention)
      modifies this
      ensures Recorded() && old(history) <= history && Spares(before, entries, retention)
      ensures forall i | |old(history)| <= i < |history| :: Spares(before, history[i], retention)
      ensures ok ==> entries == old(entries) - {name}
      ensures entries - {name} == old(entries) - {name}
      ensures moments >= old(moments) && (Calm(old(moments)) ==> ok)
    {
      ghost var was := entries;
      var targetFirst: bool := *;
      var e := entries[name];
      ok := Change(entries[name := if targetFirst then e.(target := None) else e.(metadata := None)]);
      if !ok { return; }
      assert entries - {name} == was - {name};
      ok := Change(entries[name := e.(target := None, metadata := None)]);
      if !ok { return; }
      assert entries - {name} == was - {name};
      ok := Change(entries - {name});
    }

    /** Remove a listed backup, unless it is passed over because something else turned up in it. */
    method Drop(name: nat, ghost before: Entries, retention: nat) returns (ok: bool)
      requires Recorded() && name in entries && entries[name].Complete()
      requires name in before && before[name].Complete() && !Retained(before, name, retention)
      requires Spares(before, entries, retention)
      modifies this
      ensures Recorded() && old(history) <= history && Spares(before, entries, retention)
      ensures forall i | |old(history)| <= i < |history| :: Spares(before, history[i], retention)
      ensures entries - {name} == old(entries) - {name} && entries.Keys <= old(entries).Keys
      ensures moments >= old(moments) && (Calm(old(moments)) ==> ok && entries == old(entries) - {name})
    {
      hide Retained, Spares;
      ok := true;
      var untouched := Succeeds();
      if untouched {
        ghost var was := entries;
        ok := Remove(name, before, retention);
        forall n | n in entries ensures n in was {
          assert n != name ==> n in entries - {name};
        }
      }
    }

    /**
     Drop all but the newest backups. Whatever fails and wherever the process stops, the greatest-named
     complete backups and every incomplete entry are intact. When nothing fails, the complete backups left
     are exactly those.
     */
    method Prune(retention: nat) returns (ok: bool)
      requires Recorded() && retention >= 1
      modifies this
      ensures Recorded() && old(history) <= history && moments >= old(moments)
      ensures forall i | |old(history)| <= i < |history| :: Spares(old(entries), history[i], retention)
      ensures Spares(old(entries), entries, retention) && entries.Keys <= old(entries).Keys
      ensures Calm(old(moments)) ==>
                ok && forall n :: (n in entries && entries[n].Complete()) <==> Retained(old(entries), n, retention)
    {
      hide Retained, Increasing, Spares, OnlyGone;
      ghost var before := entries;
      var candidates := CompleteBackups();
      ghost var listed := moments;
      assert forall n | n in candidates :: n in before && before[n].Complete();
      assert Quiet(trouble, old(moments), listed) ==> forall n | n in before && before[n].Complete() :: n in candidates;
      NothingGone(before, candidates, retention);
      var excess := if |candidates| <= retention then 0 else |candidates| - retention;
      for i := 0 to excess
        invariant Recorded() && old(history) <= history && moments >= listed
        invariant Spares(before, entries, retention) && entries.Keys <= before.Keys
        invariant forall k | |old(history)| <= k < |history| :: Spares(before, history[k], retention)
        invariant forall k | i <= k < |candidates| :: candidates[k] in entries && entries[candidates[k]] == before[candidates[k]]
        invariant Calm(old(moments)) ==> OnlyGone(before, entries, candidates, i)
      {
        OldIsNotRetained(before, candidates, i, retention);
        LaterDiffer(candidates, i);
        ghost var was := entries;
        var done := Drop(candidates[i], before, retention);
        if !done {
          // Something that vanished meanwhile ends the pruning quietly.
          ok := *;
          return;
        }
        assert forall k | i < k < |candidates| :: candidates[k] in was - {candidates[i]};
        if Calm(old(moments)) {
          OneMoreGone(before, was, entries, candidates, i);
        }
      }
      ok := Succeeds();
      if Calm(old(moments)) {
        ExactlyRetained(before, entries, candidates, excess, retention);
      }
    }
  }

  method Least(names: set<nat>) returns (least: nat)
    requires names != {}
    ensures least in names && forall n | n in names :: least <= n
  {
    least :| least in names;
    var rest := names - {least};
    while rest != {}
      invariant least in names && rest <= names
      invariant forall n | n in names && n !in rest :: least <= n
      decreases rest
    {
      var n :| n in rest;
      if n < least {
        least := n;
      }
      rest := rest - {n};
    }
  }
}
