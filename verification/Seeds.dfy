/**
 * The wallet directory: the legacy seed file, the secure seed store, the database files and what was
 * moved to recovery. Every method may stop between any two durable effects, and any effect may fail;
 * a method that returns a failure stands for both.
 */
module Seeds {
  import opened Base

  /** The exact 64 bytes the wallet derives everything from. */
  type Seed = s: seq<int> | |s| == 64 && forall i :: 0 <= i < |s| ==> 0 <= s[i] < 256
    witness seq(64, _ => 0)

  /** `Torn` is a file left by an interrupted write: it exists and does not parse. */
  datatype SeedFile = Absent | Torn | Holds(seed: Seed)

  datatype FileName = Main | Wal | Shm | Journal

  const DATABASE_FILES: seq<FileName> := [Main, Wal, Shm, Journal]

  /** A database file: the seed it was written under, and everything else in it. */
  datatype DbFile = DbFile(seed: Seed, content: nat)

  type Files = map<FileName, DbFile>

  datatype Profile = FileBacked | SecureBacked

  datatype Resolved = Resolved(seed: Seed, removeLegacy: bool)

  datatype Preserved = NothingThere | AllMoved | RolledBack | Interrupted

  /** Where the seed of the live database is kept: the file if there is one, else the secure store. */
  function Keeper(file: SeedFile, secure: Option<Seed>): Option<Seed> {
    match file
    case Holds(s) => Some(s)
    case Torn => None
    case Absent => secure
  }

  ghost predicate UnderOneSeed(live: Files, seed: Option<Seed>) {
    forall n :: n in live ==> Some(live[n].seed) == seed
  }

  ghost predicate Held(file: SeedFile, secure: Option<Seed>, s: Seed) {
    file == Holds(s) || secure == Some(s)
  }

  ghost predicate AllHeld(file: SeedFile, secure: Option<Seed>, saved: map<Id, Files>) {
    forall d, n :: d in saved && n in saved[d] ==> Held(file, secure, saved[d][n].seed)
  }

  /** Every file of `whole` is in exactly one of the two places, unchanged, and nothing else is. */
  ghost predicate Split(whole: Files, left: Files, right: Files) {
    && left.Keys !! right.Keys && left.Keys + right.Keys == whole.Keys
    && (forall n :: n in left ==> left[n] == whole[n])
    && (forall n :: n in right ==> right[n] == whole[n])
  }

  datatype Step = OpenAs(profile: Profile, random: Seed) | PreserveIn(dir: Id)

  ghost predicate StillHeld(file: SeedFile, secure: Option<Seed>, file': SeedFile, secure': Option<Seed>) {
    forall s: Seed :: Held(file, secure, s) ==> Held(file', secure', s)
  }

  lemma SplitNothing(whole: Files)
    ensures Split(whole, whole, map[])
  {
  }

  lemma SplitSafe(file: SeedFile, secure: Option<Seed>, whole: Files, live: Files,
                  saved: map<Id, Files>, saved': map<Id, Files>, dir: Id)
    requires UnderOneSeed(whole, Keeper(file, secure)) && AllHeld(file, secure, saved)
    requires dir in saved' && saved' == saved[dir := saved'[dir]] && Split(whole, live, saved'[dir])
    ensures UnderOneSeed(live, Keeper(file, secure)) && AllHeld(file, secure, saved')
  {
  }

  /** The first `i` moved files are still away; with no failure so far, nothing else is. */
  ghost predicate Away(moved: seq<FileName>, i: nat, away: Files, clean: bool) {
    && i <= |moved| && (forall j, k :: 0 <= j < k < |moved| ==> moved[j] != moved[k])
    && (forall k :: 0 <= k < i ==> moved[k] in away)
    && (clean ==> forall n :: n in away ==> n in moved[..i])
  }

  lemma AwayMore(moved: seq<FileName>, away: Files, n: FileName, f: DbFile)
    requires Away(moved, |moved|, away, true) && n !in away
    ensures Away(moved + [n], |moved| + 1, away[n := f], true)
  {
    var more := moved + [n];
    forall j, k | 0 <= j < k < |more|
      ensures more[j] != more[k]
    {
      if k == |moved| {
        assert moved[j] in away;
      }
    }
    var larger := away[n := f];
    assert more[..|moved| + 1] == moved[..|moved|] + [n];
    forall m | m in larger
      ensures m in more[..|moved| + 1]
    {
    }
  }

  lemma AwayLess(moved: seq<FileName>, i: nat, away: Files, clean: bool)
    requires 0 < i && Away(moved, i, away, clean)
    ensures i <= |moved| && moved[i - 1] in away
    ensures Away(moved, i - 1, away - {moved[i - 1]}, clean)
    ensures Away(moved, i - 1, away, false)
  {
    var fewer := away - {moved[i - 1]};
    forall n | clean && n in fewer
      ensures n in moved[..i - 1]
    {
      assert n in moved[..i];
    }
  }

  lemma StartAway()
    ensures Away([], 0, map[], true)
  {
  }

  lemma NoneAway(moved: seq<FileName>, away: Files)
    requires Away(moved, 0, away, true)
    ensures away == map[]
  {
  }

  lemma SplitOut(whole: Files, left: Files, right: Files, n: FileName)
    requires Split(whole, left, right) && n in left
    ensures n !in right && Split(whole, left - {n}, right[n := left[n]])
  {
  }

  lemma SplitBack(whole: Files, left: Files, right: Files, n: FileName)
    requires Split(whole, left, right) && n in right
    ensures Split(whole, left[n := right[n]], right - {n})
  {
  }

  lemma SplitEnds(whole: Files, left: Files, right: Files)
    requires Split(whole, left, right)
    ensures right == map[] ==> left == whole
    ensures left == map[] ==> right == whole
  {
    if right == map[] {
      assert left.Keys == whole.Keys;
    }
    if left == map[] {
      assert right.Keys == whole.Keys;
    }
  }

  lemma NoneListed(live: Files)
    requires forall k :: 0 <= k < |DATABASE_FILES| ==> DATABASE_FILES[k] !in live
    ensures live == map[]
  {
    assert DATABASE_FILES[0] == Main && DATABASE_FILES[1] == Wal;
    assert DATABASE_FILES[2] == Shm && DATABASE_FILES[3] == Journal;
    forall n: FileName
      ensures n !in live
    {
      assert n == Main || n == Wal || n == Shm || n == Journal;
    }
  }

  /** The states no seed can be resolved from, and the one where the secure store kept something else. */
  ghost predicate MustRefuse(profile: Profile, file: SeedFile, secure: Option<Seed>, live: Files, random: Seed,
                             kept: Option<Seed>)
  {
    || file == Torn
    || match profile
       case FileBacked => file == Absent && live != map[]
       case SecureBacked =>
         || (secure.Some? && file.Holds? && file.seed != secure.value)
         || (secure.None? && file == Absent && live != map[])
         || (secure.None? && kept != Some(if file.Holds? then file.seed else random))
  }

  class WalletDir {
    var file: SeedFile
    var secure: Option<Seed>
    var live: Files
    var saved: map<Id, Files>
    /** How often a store or the file system failed, or the process was stopped. */
    ghost var setbacks: nat

    /** The live database is under the seed its keeper holds, and no seed a database used is lost. */
    ghost predicate Safe()
      reads this
    {
      UnderOneSeed(live, Keeper(file, secure)) && AllHeld(file, secure, saved)
    }

    constructor ()
      ensures Safe() && file == Absent && secure == None && live == map[] && saved == map[]
    {
      file, secure, live, saved, setbacks := Absent, None, map[], map[], 0;
    }

    /** Whether something outside fails here, or the process is stopped. */
    method Stops() returns (stop: bool)
      modifies this`setbacks
      ensures setbacks == if stop then old(setbacks) + 1 else old(setbacks)
    {
      stop := *;
      if stop {
        setbacks := setbacks + 1;
      }
    }

    // -------------------------------------------------------------- seed stores

    /** The seed the profile's store holds; an unavailable or unreadable store is an error. */
    method LoadSeed(profile: Profile, available: bool) returns (r: Option<Option<Seed>>)
      ensures r.None? <==> !available || (profile.FileBacked? && file == Torn)
      ensures r.Some? && profile.FileBacked? ==>
                file != Torn && r.value == (if file.Holds? then Some(file.seed) else None)
      ensures r.Some? && profile.SecureBacked? ==> r.value == secure
    {
      if !available { return None; }
      match profile {
        case SecureBacked => return Some(secure);
        case FileBacked =>
          match file {
            case Absent => return Some(None);
            case Torn => return None;
            case Holds(s) => return Some(Some(s));
          }
      }
    }

    /**
     * Stores a seed. The file store never replaces an existing file, and an interrupted write tears it;
     * a secure store may keep anything at all.
     */
    method StoreSeed(profile: Profile, seed: Seed) returns (ok: bool)
      modifies this
      ensures live == old(live) && saved == old(saved)
      ensures profile.FileBacked? ==> secure == old(secure)
      ensures profile.FileBacked? && old(file) != Absent ==> file == old(file)
      ensures profile.SecureBacked? ==> file == old(file)
      ensures ok && profile.FileBacked? ==> file == Holds(seed)
      ensures setbacks >= old(setbacks)
      ensures !ok ==> setbacks > old(setbacks) || (profile.FileBacked? && old(file) != Absent && file != Holds(seed))
    {
      var stop;
      match profile {
        case SecureBacked =>
          secure := *;
          stop := Stops();
          return !stop;
        case FileBacked =>
          if file != Absent {
            return file == Holds(seed);
          }
          stop := Stops();
          if stop { return false; }
          file := Torn;
          stop := Stops();
          if stop { return false; }
          file := Holds(seed);
          stop := Stops();
          return !stop;
      }
    }

    // -------------------------------------------------------------- resolution

    /** Puts a seed in an empty store and reads it back; succeeds only if it came back exactly. */
    method StoreAndVerify(profile: Profile, seed: Seed) returns (ok: bool)
      requires if profile.FileBacked? then file == Absent && live == map[]
               else secure == None && (file == Holds(seed) || (file == Absent && live == map[]))
      modifies this
      ensures live == old(live) && saved == old(saved)
      ensures old(Safe()) ==> Safe()
      ensures profile.SecureBacked? ==> file == old(file)
      ensures profile.FileBacked? ==> secure == old(secure)
      ensures ok ==> Keeper(file, secure) == Some(seed)
      ensures ok ==> if profile.FileBacked? then file == Holds(seed) else secure == Some(seed)
      ensures setbacks >= old(setbacks)
      ensures !ok ==> setbacks > old(setbacks) || (profile.SecureBacked? && secure != Some(seed))
    {
      ok := StoreSeed(profile, seed);
      if !ok { return false; }
      var gone := Stops();
      var again := LoadSeed(profile, !gone);
      return again == Some(Some(seed));
    }

    /**
     * Resolves the one seed to open with, `random` being the random bytes of a new one. It never
     * generates over an existing database, and never chooses between two different seeds.
     */
    method Resolve(profile: Profile, random: Seed) returns (r: Option<Resolved>)
      modifies this
      ensures live == old(live) && saved == old(saved)
      ensures old(Safe()) ==> Safe()
      ensures old(file) != Absent ==> file == old(file)
      ensures old(secure).Some? ==> secure == old(secure)
      ensures r.Some? ==> Keeper(file, secure) == Some(r.value.seed)
      ensures r.Some? && profile.FileBacked? ==> file == Holds(r.value.seed)
      ensures r.Some? && profile.SecureBacked? ==>
                secure == Some(r.value.seed) && (r.value.removeLegacy <==> file != Absent)
      ensures r.Some? && r.value.removeLegacy ==>
                profile.SecureBacked? && file == Holds(r.value.seed) && secure == Some(r.value.seed)
      ensures old(file) == Absent && (profile.FileBacked? || old(secure) == None) && live != map[] ==>
                r == None && file == old(file) && secure == old(secure)
      ensures profile.SecureBacked? && old(secure).Some? && old(file).Holds? && old(file.seed) != old(secure).value ==>
                r == None
      ensures setbacks >= old(setbacks)
      ensures r == None ==>
                setbacks > old(setbacks) || MustRefuse(profile, old(file), old(secure), live, random, secure)
    {
      var gone := Stops();
      var stored := LoadSeed(profile, !gone);
      if stored.None? { return None; }
      var legacy: Option<Seed> := None;
      if profile.SecureBacked? && file != Absent {
        if file == Torn { return None; }
        var unread := Stops();
        if unread { return None; }
        legacy := Some(file.seed);
      }
      match (stored.value, legacy) {
        case (Some(s), Some(l)) =>
          return if s != l then None else Some(Resolved(s, true));
        case (Some(s), None) =>
          return Some(Resolved(s, false));
        case (None, Some(l)) =>
          var ok := StoreAndVerify(profile, l);
          return if ok then Some(Resolved(l, true)) else None;
        case (None, None) =>
          if live != map[] { return None; }
          var ok := StoreAndVerify(profile, random);
          return if ok then Some(Resolved(random, false)) else None;
      }
    }

    // -------------------------------------------------------------- opening

    /** SQLite opens or creates the database: files appear under `seed`, and none changes its seed. */
    method OpenDatabase(seed: Seed) returns (ok: bool)
      modifies this`live, this`setbacks
      ensures setbacks >= old(setbacks) && (!ok ==> setbacks > old(setbacks))
      ensures forall n :: n in live ==> live[n].seed == (if n in old(live) then old(live)[n].seed else seed)
      ensures ok ==> Main in live
    {
      var next: Files := *;
      if Main !in next || exists n :: n in next && next[n].seed != (if n in live then live[n].seed else seed) {
        setbacks := setbacks + 1;
        return false;
      }
      live := next;
      var stop := Stops();
      return !stop;
    }

    /** Removes the legacy file once the database has opened under the migrated seed. */
    method FinalizeMigration(resolved: Resolved) returns (ok: bool)
      modifies this`file, this`setbacks
      ensures setbacks >= old(setbacks) && (!ok ==> setbacks > old(setbacks))
      ensures !resolved.removeLegacy ==> file == old(file)
      ensures file == old(file) || file == Absent
      ensures ok && resolved.removeLegacy ==> file == Absent
    {
      if !resolved.removeLegacy { return true; }
      var stop := Stops();
      if stop { return false; }
      file := Absent;
      stop := Stops();
      return !stop;
    }

    /**
     * Opens the wallet. Success means the database that was there, if any, was written under the seed
     * returned; the legacy file goes away only when the secure store holds its seed; no seed is lost.
     */
    method Open(profile: Profile, random: Seed) returns (r: Option<Seed>)
      requires Safe()
      modifies this
      ensures Safe() && saved == old(saved)
      ensures r.Some? ==> Main in live && UnderOneSeed(live, r) && UnderOneSeed(old(live), r)
      ensures r.Some? ==> if profile.FileBacked? then file == Holds(r.value) else file == Absent && secure == r
      ensures forall n :: n in live && n in old(live) ==> live[n].seed == old(live)[n].seed
      ensures old(file).Holds? && file != old(file) ==>
                profile.SecureBacked? && file == Absent && secure == Some(old(file.seed))
      ensures old(file) == Torn ==> file == Torn
      ensures old(secure).Some? ==> secure == old(secure)
      ensures setbacks >= old(setbacks)
      ensures r == None ==>
                || setbacks > old(setbacks)
                || MustRefuse(profile, old(file), old(secure), old(live), random, secure)
    {
      var stop := Stops();
      if stop { return None; }
      var resolved := Resolve(profile, random);
      if resolved.None? { return None; }
      var seed := resolved.value.seed;
      ghost var before := live;
      assert UnderOneSeed(before, Some(seed));
      var ok := OpenDatabase(seed);
      assert UnderOneSeed(live, Some(seed));
      if !ok { return None; }
      ok := FinalizeMigration(resolved.value);
      return if ok then Some(seed) else None;
    }

    // -------------------------------------------------------------- preservation

    /** Moves one live file to recovery, or fails and changes nothing. */
    method MoveOut(dir: Id, n: FileName) returns (ok: bool)
      requires n in live && dir in saved
      modifies this
      ensures file == old(file) && secure == old(secure)
      ensures if ok then live == old(live) - {n} && saved == old(saved)[dir := old(saved)[dir][n := old(live)[n]]]
              else live == old(live) && saved == old(saved)
      ensures setbacks == if ok then old(setbacks) else old(setbacks) + 1
    {
      var stop := Stops();
      if stop { return false; }
      saved := saved[dir := saved[dir][n := live[n]]];
      live := live - {n};
      return true;
    }

    /** Moves one file back, or fails and changes nothing. */
    method MoveBack(dir: Id, n: FileName) returns (ok: bool)
      requires dir in saved && n in saved[dir]
      modifies this
      ensures file == old(file) && secure == old(secure)
      ensures if ok then live == old(live)[n := old(saved)[dir][n]] && saved == old(saved)[dir := old(saved)[dir] - {n}]
              else live == old(live) && saved == old(saved)
      ensures setbacks == if ok then old(setbacks) else old(setbacks) + 1
    {
      var stop := Stops();
      if stop { return false; }
      live := live[n := saved[dir][n]];
      saved := saved[dir := saved[dir] - {n}];
      return true;
    }

    /** Undoes the moves, last first; a file that cannot be moved back stays in recovery. */
    method RollBack(dir: Id, moved: seq<FileName>, ghost whole: Files) returns (r: Preserved)
      requires dir in saved && Split(whole, live, saved[dir])
      requires Away(moved, |moved|, saved[dir], true)
      modifies this
      ensures file == old(file) && secure == old(secure)
      ensures dir in saved && saved == old(saved)[dir := saved[dir]] && Split(whole, live, saved[dir])
      ensures r.RolledBack? ==> live == whole && saved[dir] == map[]
      ensures r.RolledBack? || r.Interrupted?
      ensures setbacks >= old(setbacks) && (r.Interrupted? ==> setbacks > old(setbacks))
    {
      hide Split, Away;
      var i := |moved|;
      var failures := 0;
      while i > 0
        invariant 0 <= i && 0 <= failures && setbacks == old(setbacks) + failures
        invariant file == old(file) && secure == old(secure)
        invariant dir in saved && saved == old(saved)[dir := saved[dir]] && Split(whole, live, saved[dir])
        invariant Away(moved, i, saved[dir], failures == 0)
      {
        var stop := Stops();
        if stop { return Interrupted; }
        AwayLess(moved, i, saved[dir], failures == 0);
        SplitBack(whole, live, saved[dir], moved[i - 1]);
        var ok := MoveBack(dir, moved[i - 1]);
        i := i - 1;
        if !ok {
          failures := failures + 1;
        }
      }
      if failures > 0 { return Interrupted; }
      NoneAway(moved, saved[dir]);
      SplitEnds(whole, live, saved[dir]);
      return RolledBack;
    }

    /** Moves the listed files that exist, in order, undoing the moves if one fails. */
    method MoveAll(dir: Id, names: seq<FileName>) returns (r: Preserved)
      requires dir in saved && saved[dir] == map[]
      modifies this
      ensures file == old(file) && secure == old(secure)
      ensures dir in saved && saved == old(saved)[dir := saved[dir]] && Split(old(live), live, saved[dir])
      ensures r.AllMoved? ==> forall k :: 0 <= k < |names| ==> names[k] !in live
      ensures r.RolledBack? ==> live == old(live) && saved[dir] == map[]
      ensures !r.NothingThere?
      ensures setbacks >= old(setbacks) && (!r.AllMoved? ==> setbacks > old(setbacks))
    {
      hide Split, Away;
      ghost var whole := live;
      SplitNothing(live);
      var moved: seq<FileName> := [];
      StartAway();
      for i := 0 to |names|
        invariant file == old(file) && secure == old(secure)
        invariant dir in saved && saved == old(saved)[dir := saved[dir]] && Split(whole, live, saved[dir])
        invariant Away(moved, |moved|, saved[dir], true) && setbacks == old(setbacks)
        invariant forall k :: 0 <= k < i ==> names[k] !in live
      {
        var stop := Stops();
        if stop { return Interrupted; }
        var n := names[i];
        if n in live {
          SplitOut(whole, live, saved[dir], n);
          AwayMore(moved, saved[dir], n, live[n]);
          var ok := MoveOut(dir, n);
          if !ok {
            r := RollBack(dir, moved, whole);
            return;
          }
          moved := moved + [n];
        }
      }
      return AllMoved;
    }

    /**
     * Moves the database files to a new recovery directory. Stopped or not, every file is in exactly one
     * of the two places, unchanged.
     */
    method MoveDatabase(dir: Id) returns (r: Preserved)
      requires dir !in saved
      modifies this
      ensures file == old(file) && secure == old(secure)
      ensures (saved == old(saved) && live == old(live))
              || (dir in saved && saved == old(saved)[dir := saved[dir]] && Split(old(live), live, saved[dir]))
      ensures r.NothingThere? ==> live == map[] && saved == old(saved)
      ensures r.AllMoved? ==> live == map[] && dir in saved && saved[dir] == old(live) != map[]
      ensures r.RolledBack? ==> live == old(live) && dir in saved && saved[dir] == map[]
      ensures setbacks >= old(setbacks) && (r.RolledBack? || r.Interrupted? ==> setbacks > old(setbacks))
    {
      hide Split;
      var stop := Stops();
      if stop { return Interrupted; }
      if live == map[] { return NothingThere; }
      saved := saved[dir := map[]];
      r := MoveAll(dir, DATABASE_FILES);
      if r.AllMoved? {
        NoneListed(live);
        SplitEnds(old(live), live, saved[dir]);
      }
    }

    /** The recovery operation, under the same invariant as opening. */
    method Preserve(dir: Id) returns (r: Preserved)
      requires Safe() && dir !in saved
      modifies this
      ensures Safe() && file == old(file) && secure == old(secure)
      ensures (saved == old(saved) && live == old(live))
              || (dir in saved && saved == old(saved)[dir := saved[dir]] && Split(old(live), live, saved[dir]))
      ensures r.NothingThere? ==> live == map[] && saved == old(saved)
      ensures r.AllMoved? ==> live == map[] && dir in saved && saved[dir] == old(live) != map[]
      ensures r.RolledBack? ==> live == old(live) && dir in saved && saved[dir] == map[]
      ensures setbacks >= old(setbacks) && (r.RolledBack? || r.Interrupted? ==> setbacks > old(setbacks))
    {
      hide Split, AllHeld, UnderOneSeed;
      r := MoveDatabase(dir);
      if live != old(live) || saved != old(saved) {
        SplitSafe(file, secure, old(live), live, old(saved), saved, dir);
      }
    }

    // -------------------------------------------------------------- any run

    /**
     * Any run of opens under either profile and preservations, each of which may fail or be cut short.
     * Every open that succeeded did so with the seed of the database it found, and every seed the file
     * or the store ever held is still held.
     */
    method Runs(steps: seq<Step>) returns (opens: seq<(Files, Seed)>)
      requires Safe()
      modifies this
      ensures Safe()
      ensures forall k :: 0 <= k < |opens| ==> UnderOneSeed(opens[k].0, Some(opens[k].1))
      ensures StillHeld(old(file), old(secure), file, secure)
      ensures old(secure).Some? ==> secure == old(secure)
    {
      hide AllHeld, UnderOneSeed, Split;
      opens := [];
      for i := 0 to |steps|
        invariant Safe()
        invariant forall k :: 0 <= k < |opens| ==> UnderOneSeed(opens[k].0, Some(opens[k].1))
        invariant StillHeld(old(file), old(secure), file, secure)
        invariant old(secure).Some? ==> secure == old(secure)
      {
        match steps[i] {
          case OpenAs(profile, random) =>
            var found := live;
            var r := Open(profile, random);
            if r.Some? {
              opens := opens + [(found, r.value)];
            }
          case PreserveIn(dir) =>
            if dir !in saved {
              var _ := Preserve(dir);
            }
        }
      }
    }
  }
}
