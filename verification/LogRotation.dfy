/**
 The doctor's size-bounded log: a live file and numbered backups, rotated by a descending
 loop of renames. Any file-system call may raise; the loop then stops where it is.
 */
module LogRotation {
  import opened Common

  type Bytes = seq<nat>

  function Content(file: Option<Bytes>): Bytes {
    if file.Some? then file.value else []
  }

  function Backup(saved: map<nat, Bytes>, index: nat): Bytes {
    if index in saved then saved[index] else []
  }

  /** Every backup below the last slot has moved one slot up, gaps included. */
  ghost predicate Shifted(before: map<nat, Bytes>, after: map<nat, Bytes>, n: nat) {
    forall k: nat {:trigger Slot(before, k)} :: 1 <= k < n ==> Slot(after, k + 1) == Slot(before, k)
  }

  function Slot(saved: map<nat, Bytes>, index: nat): Option<Bytes> {
    if index in saved then Some(saved[index]) else None
  }

  /** Only slots 1 to `n`, each with fewer than `cap` bytes. */
  ghost predicate Within(saved: map<nat, Bytes>, n: nat, cap: int) {
    forall k :: k in saved ==> 1 <= k <= n && |saved[k]| < cap
  }

  /** The backups up to number `n`, oldest first; missing ones contribute nothing. */
  function Joined(saved: map<nat, Bytes>, n: nat): Bytes {
    if n == 0 then [] else Backup(saved, n) + Joined(saved, n - 1)
  }

  lemma {:induction false} JoinedDepends(saved: map<nat, Bytes>, other: map<nat, Bytes>, n: nat)
    requires forall k :: 1 <= k <= n ==> Backup(saved, k) == Backup(other, k)
    ensures Joined(saved, n) == Joined(other, n)
  {
    if n > 0 {
      JoinedDepends(saved, other, n - 1);
    }
  }

  /** Renaming a backup into the free slot above it keeps the order of everything. */
  lemma {:induction false} JoinedMove(saved: map<nat, Bytes>, index: nat, n: nat)
    requires 1 <= index < n && index in saved && index + 1 !in saved
    ensures Joined((saved - {index})[index + 1 := saved[index]], n) == Joined(saved, n)
  {
    var moved := (saved - {index})[index + 1 := saved[index]];
    if n == index + 1 {
      JoinedDepends(moved, saved, index - 1);
      assert Joined(moved, n) == saved[index] + ([] + Joined(moved, index - 1));
      assert Joined(saved, n) == [] + (saved[index] + Joined(saved, index - 1));
    } else {
      JoinedMove(saved, index, n - 1);
    }
  }

  /** The live log becomes the newest backup. */
  lemma {:induction false} JoinedNewest(saved: map<nat, Bytes>, content: Bytes, n: nat)
    requires n >= 1 && 1 !in saved
    ensures Joined(saved[1 := content], n) == Joined(saved, n) + content
  {
    if n == 1 {
      assert Joined(saved[1 := content], 1) == content + [];
      assert Joined(saved, 1) == [] + [];
    } else {
      JoinedNewest(saved, content, n - 1);
      assert Backup(saved[1 := content], n) == Backup(saved, n);
    }
  }

  /** Dropping the oldest backup drops the front. */
  lemma {:induction false} JoinedOldest(saved: map<nat, Bytes>, n: nat)
    requires n >= 1
    ensures Joined(saved, n) == Backup(saved, n) + Joined(saved - {n}, n)
  {
    var less := saved - {n};
    forall k | 1 <= k <= n - 1 ensures Backup(less, k) == Backup(saved, k) {
    }
    JoinedDepends(less, saved, n - 1);
    assert Joined(less, n) == [] + Joined(less, n - 1) == Joined(saved, n - 1);
  }

  /** Numbers up to `n` cannot name more than `n` backups. */
  lemma {:induction false} AtMost(indices: set<nat>, n: nat)
    requires forall k :: k in indices ==> 1 <= k <= n
    ensures |indices| <= n
  {
    if n > 0 {
      AtMost(indices - {n}, n - 1);
    } else {
      assert indices == {};
    }
  }

  function Max(a: int, b: int): int {
    if a < b then b else a
  }

  class DoctorLog {
    const maxBytes: int
    const backups: nat
    var live: Option<Bytes>
    var saved: map<nat, Bytes>
    ghost var logged: Bytes      // everything ever logged

    /** The backups oldest first, then the live log. */
    ghost function View(): Bytes
      reads this
    {
      Joined(saved, backups) + Content(live)
    }

    ghost predicate Valid()
      reads this
    {
      && backups >= 1
      && (forall k :: k in saved ==> 1 <= k <= backups)
      && IsSuffix(View(), logged)
    }

    /** Every file is smaller than the limit plus one line. */
    ghost predicate Bounded(longest: nat)
      reads this
    {
      && |Content(live)| < Max(maxBytes, 1) + longest
      && forall k :: k in saved ==> |saved[k]| < Max(maxBytes, 1) + longest
    }

    constructor (maxBytes: int, configured: int)
      ensures Valid() && live == None && saved == map[] && logged == []
      ensures this.maxBytes == maxBytes && this.backups == Max(1, configured)
    {
      this.maxBytes, this.backups := maxBytes, Max(1, configured);
      live, saved, logged := None, map[], [];
      new;
      JoinedDepends(map[], map[], backups);
      Empty(backups);
    }

    static lemma {:induction false} Empty(n: nat)
      ensures Joined(map[], n) == []
    {
      if n > 0 {
        Empty(n - 1);
      }
    }

    /**
     The descending loop: each backup moves into the slot above it, which is free. Where an
     error stops it, every backup is still there and in order.
     */
    method ShiftBackups(fails: nat -> bool, start: nat, ghost cap: int) returns (calls: nat, stopped: bool)
      requires backups >= 1 && backups !in saved && Within(saved, backups, cap)
      modifies this`saved
      ensures Joined(saved, backups) == Joined(old(saved), backups)
      ensures Within(saved, backups, cap)
      ensures stopped ==> exists i: nat :: fails(i)
      ensures !stopped ==> 1 !in saved && Shifted(old(saved), saved, backups)
    {
      ghost var before := saved;
      calls, stopped := start, false;
      var index: int := backups - 1;
      while index > 0
        invariant 0 <= index < backups && index + 1 !in saved
        invariant Joined(saved, backups) == Joined(before, backups)
        invariant Within(saved, backups, cap)
        invariant forall k: nat {:trigger Slot(before, k)} :: 1 <= k <= index ==> Slot(saved, k) == Slot(before, k)
        invariant forall k: nat {:trigger Slot(before, k)} :: index < k < backups ==>
                  Slot(saved, k + 1) == Slot(before, k)
        decreases index
      {
        calls := calls + 1;
        if fails(calls - 1) {
          return calls, true;
        }
        if index in saved {
          calls := calls + 1;
          if fails(calls - 1) {
            return calls, true;
          }
          JoinedMove(saved, index, backups);
          assert Slot(saved, index) == Slot(before, index);
          saved := (saved - {index})[index + 1 := saved[index]];
        }
        index := index - 1;
      }
    }

    /**
     `fails(i)` tells whether the i-th file-system call raises. Wherever an error stops the
     rotation, the files still spell what they spelled before, short of at most the oldest
     backup; a rotation without errors shifts every backup by one.
     */
    method Rotate(fails: nat -> bool, ghost longest: nat)
      requires Valid()
      modifies this`live, this`saved
      ensures Valid()
      ensures View() == old(View()) || Backup(old(saved), backups) + View() == old(View())
      ensures old(live).None? || |old(live).value| < maxBytes ==> live == old(live) && saved == old(saved)
      ensures old(live).Some? && |old(live).value| >= maxBytes && (forall i: nat :: !fails(i)) ==>
                && live == None
                && Slot(saved, 1) == old(live) && Shifted(old(saved), saved, backups)
      ensures old(Bounded(longest)) ==> Bounded(longest)
    {
      if fails(0) || live.None? || fails(1) || |live.value| < maxBytes {
        return;
      }
      if fails(2) {
        return;
      }
      ghost var cap := if Bounded(longest) then Max(maxBytes, 1) + longest else Largest(saved) + 1;
      ghost var before := saved;
      DropOldest();
      ghost var dropped := saved;
      assert forall k: nat {:trigger Slot(before, k)} :: 1 <= k < backups ==> Slot(before, k) == Slot(dropped, k);
      label kept:
      var calls, stopped := ShiftBackups(fails, 3, cap);
      assert View() == old@kept(View());
      if stopped || fails(calls) {
        return;
      }
      Retire();
    }

    /** Unlinks the oldest backup. */
    method DropOldest()
      requires Valid()
      modifies this`saved
      ensures Valid() && saved == old(saved) - {backups}
      ensures Backup(old(saved), backups) + View() == old(View())
    {
      JoinedOldest(saved, backups);
      SuffixOfSuffix(Backup(saved, backups), Joined(saved - {backups}, backups) + Content(live), logged) by {
        assert Backup(saved, backups) + (Joined(saved - {backups}, backups) + Content(live)) == View();
      }
      saved := saved - {backups};
    }

    /** Renames the live log to backup 1, whose name is free. */
    method Retire()
      requires Valid() && live.Some? && 1 !in saved
      modifies this`live, this`saved
      ensures Valid() && View() == old(View())
      ensures live == None && saved == old(saved)[1 := old(live).value]
    {
      JoinedNewest(saved, live.value, backups);
      saved := saved[1 := live.value];
      live := None;
      assert View() == Joined(saved, backups) + [];
    }

    static ghost function Largest(saved: map<nat, Bytes>): (r: nat)
      ensures forall k :: k in saved ==> |saved[k]| <= r
      decreases |saved|
    {
      if saved == map[] then 0
      else
        var k :| k in saved;
        var rest := Largest(saved - {k});
        assert forall m :: m in saved && m != k ==> m in saved - {k};
        if rest < |saved[k]| then |saved[k]| else rest
    }

    static lemma SuffixOfSuffix(front: Bytes, back: Bytes, whole: Bytes)
      requires IsSuffix(front + back, whole)
      ensures IsSuffix(back, whole)
    {
      var rest := whole[|whole| - |front + back|..];
      assert whole[|whole| - |back|..] == rest[|front|..] == back;
    }

    static lemma SuffixGrows(s: Bytes, whole: Bytes, line: Bytes)
      requires IsSuffix(s, whole)
      ensures IsSuffix(s + line, whole + line)
    {
      assert (whole + line)[|whole| - |s|..] == whole[|whole| - |s|..] + line;
    }

    /** Appends a line to the live file. */
    method Append(line: Bytes)
      requires Valid()
      modifies this`live, this`logged
      ensures Valid() && View() == old(View()) + line
      ensures logged == old(logged) + line && live == Some(Content(old(live)) + line)
    {
      hide Joined;
      SuffixGrows(View(), logged, line);
      ghost var earlier := Joined(saved, backups);
      assert (earlier + Content(live)) + line == earlier + (Content(live) + line);
      live := Some(Content(live) + line);
      logged := logged + line;
    }

    /** Rotates and appends; `opens` is false when the live file cannot be opened, and then nothing is logged. */
    method Log(line: Bytes, fails: nat -> bool, opens: bool, ghost longest: nat) returns (written: bool)
      requires Valid()
      modifies this
      ensures Valid() && written == opens
      ensures logged == if written then old(logged) + line else old(logged)
      ensures written ==> live.Some? && IsSuffix(line, live.value)
      ensures var now := old(View()) + if written then line else [];
              View() == now || Backup(old(saved), backups) + View() == now
      ensures (forall i: nat :: !fails(i)) && old(Bounded(longest)) && |line| <= longest ==> Bounded(longest)
      ensures |saved.Keys| <= backups
    {
      hide IsSuffix, Joined;
      ghost var start, oldest := View(), Backup(saved, backups);
      Rotate(fails, longest);
      ghost var kept := View();
      AtMost(saved.Keys, backups);
      written := opens;
      assert kept + [] == kept && start + [] == start;
      assert oldest + (kept + line) == (oldest + kept) + line;
      if opens {
        ghost var before := Content(live);
        Append(line);
        assert IsSuffix(line, before + line) by { SuffixOfAppended(before, line); }
      }
    }

    static lemma SuffixOfAppended(front: Bytes, line: Bytes)
      ensures IsSuffix(line, front + line)
    {
    }
  }
}
