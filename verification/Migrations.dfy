/** internal/platform/postgres/migrator.go: reading the migration directory. */
module MigrationFiles {
  import opened Core
  import opened Text

  /** A directory entry; `data` is None when the file cannot be read. */
  datatype Entry = Entry(name: string, isDir: bool, data: Option<string>)

  datatype Migration = Migration(version: nat, name: string, sql: string)

  predicate IsDigit(c: char) { '0' <= c <= '9' }

  predicate IsNameChar(c: char) { 'a' <= c <= 'z' || IsDigit(c) || c == '_' }

  function DigitValue(c: char): nat
    requires IsDigit(c)
  {
    c as int - '0' as int
  }

  function Decimal(digits: string): nat
    requires forall i :: 0 <= i < |digits| ==> IsDigit(digits[i])
  {
    if digits == "" then 0
    else 10 * Decimal(digits[..|digits| - 1]) + DigitValue(digits[|digits| - 1])
  }

  /** Six digits, an underscore, a name of lower-case letters, digits and
      underscores, and the forward suffix. */
  predicate WellNamed(file: string) {
    && |file| >= 15
    && (forall i :: 0 <= i < 6 ==> IsDigit(file[i]))
    && file[6] == '_'
    && (forall i :: 7 <= i < |file| - 7 ==> IsNameChar(file[i]))
    && file[|file| - 7..] == ".up.sql"
  }

  predicate IsForward(e: Entry) {
    !e.isDir && WellNamed(e.name)
  }

  function VersionOf(e: Entry): nat
    requires IsForward(e)
  {
    Decimal(e.name[..6])
  }

  predicate Readable(e: Entry) {
    e.data.Some? && !IsBlank(e.data.value)
  }

  function MigrationOf(e: Entry): Migration
    requires IsForward(e) && Readable(e)
  {
    Migration(VersionOf(e), e.name[7..|e.name| - 7], e.data.value)
  }

  // ---- What file names mean ----

  /** Six digits, an underscore, at least one lower-case letter, digit or underscore, and `.up.sql`. */
  predicate NamedBy(file: string, digits: string, name: string) {
    && file == digits + "_" + name + ".up.sql"
    && |digits| == 6 && (forall i :: 0 <= i < 6 ==> 48 <= digits[i] as int <= 57)
    && name != "" && (forall i :: 0 <= i < |name| ==>
                        97 <= name[i] as int <= 122 || 48 <= name[i] as int <= 57 || name[i] as int == 95)
  }

  lemma WellNamedIff(file: string)
    ensures WellNamed(file) <==> exists digits, name :: NamedBy(file, digits, name)
    ensures WellNamed(file) ==> NamedBy(file, file[..6], file[7..|file| - 7])
  {
    if WellNamed(file) {
      assert file == file[..6] + "_" + file[7..|file| - 7] + ".up.sql";
      assert NamedBy(file, file[..6], file[7..|file| - 7]);
    }
    if digits, name :| NamedBy(file, digits, name) {
      NamedIsWellNamed(file, digits, name);
    }
  }

  lemma NamedIsWellNamed(file: string, digits: string, name: string)
    requires NamedBy(file, digits, name)
    ensures WellNamed(file)
  {
    assert |file| == |name| + 14;
    forall i | 0 <= i < 6 ensures IsDigit(file[i]) {
      assert file[i] == digits[i];
    }
    forall i | 7 <= i < |file| - 7 ensures IsNameChar(file[i]) {
      assert file[i] == name[i - 7];
    }
    assert file[|file| - 7..] == ".up.sql";
  }

  lemma ForwardIff(e: Entry)
    ensures IsForward(e) <==> !e.isDir && exists digits, name :: NamedBy(e.name, digits, name)
  {
    WellNamedIff(e.name);
  }

  /** A migration has the number its digits write, the name after them and the contents of the file. */
  lemma MigrationIs(e: Entry, digits: string, name: string)
    requires IsForward(e) && Readable(e) && NamedBy(e.name, digits, name)
    ensures MigrationOf(e).name == name && Some(MigrationOf(e).sql) == e.data
    ensures MigrationOf(e).version
         == 100000 * (digits[0] as int - 48) + 10000 * (digits[1] as int - 48) + 1000 * (digits[2] as int - 48)
            + 100 * (digits[3] as int - 48) + 10 * (digits[4] as int - 48) + (digits[5] as int - 48)
  {
    assert e.name[..6] == digits && e.name[7..|e.name| - 7] == name;
    DecimalNext(digits, 0);
    DecimalNext(digits, 1);
    DecimalNext(digits, 2);
    DecimalNext(digits, 3);
    DecimalNext(digits, 4);
    DecimalNext(digits, 5);
    assert digits[..6] == digits;
  }

  lemma DecimalNext(digits: string, i: nat)
    requires i < |digits| && forall k :: 0 <= k < |digits| ==> IsDigit(digits[k])
    ensures Decimal(digits[..i + 1]) == 10 * Decimal(digits[..i]) + DigitValue(digits[i])
  {
    assert digits[..i + 1][..i] == digits[..i];
  }

  lemma {:induction false} LessAtEnd(a: string, b: string)
    requires |a| == |b| > 0
    ensures var n := |a| - 1;
            Less(a, b) <==> Less(a[..n], b[..n]) || (a[..n] == b[..n] && a[n] < b[n])
  {
    var n := |a| - 1;
    if n > 0 {
      LessAtEnd(a[1..], b[1..]);
      assert a[1..][..n - 1] == a[..n][1..] && b[1..][..n - 1] == b[..n][1..];
      assert a[..n] == [a[0]] + a[..n][1..] && b[..n] == [b[0]] + b[..n][1..];
    }
  }

  /** Numbers of equally many digits are ordered as the digits are, so directory order is version order. */
  lemma {:induction false} NumbersOrderAsNames(a: string, b: string)
    requires |a| == |b| && (forall i :: 0 <= i < |a| ==> IsDigit(a[i]) && IsDigit(b[i]))
    ensures Decimal(a) < Decimal(b) <==> Less(a, b)
    ensures Decimal(a) == Decimal(b) <==> a == b
  {
    if a != "" {
      var n := |a| - 1;
      NumbersOrderAsNames(a[..n], b[..n]);
      LessAtEnd(a, b);
      LessAsymmetric(a[..n], b[..n]);
      assert a == a[..n] + [a[n]] && b == b[..n] + [b[n]];
    }
  }

  /** The forward migrations among the entries, in directory order. */
  function Forward(entries: seq<Entry>): (r: seq<Entry>)
    ensures forall e :: e in r ==> e in entries && IsForward(e)
    ensures forall e :: e in entries && IsForward(e) ==> e in r
  {
    if entries == [] then []
    else
      var front, last := Forward(entries[..|entries| - 1]), entries[|entries| - 1];
      assert entries == entries[..|entries| - 1] + [last];
      if IsForward(last) then front + [last] else front
  }

  /** Every forward migration is usable and no two share a version. */
  predicate Loadable(forward: seq<Entry>)
    requires forall e :: e in forward ==> IsForward(e)
  {
    && (forall i :: 0 <= i < |forward| ==> VersionOf(forward[i]) > 0 && Readable(forward[i]))
    && (forall i, j :: 0 <= i < j < |forward| ==> VersionOf(forward[i]) != VersionOf(forward[j]))
  }

  predicate Ascending(ms: seq<Migration>) {
    forall i, j :: 0 <= i < j < |ms| ==> ms[i].version < ms[j].version
  }

  /** `ms` lists exactly the migrations of `forward`. */
  ghost predicate Lists(ms: seq<Migration>, forward: seq<Entry>)
    requires forall e :: e in forward ==> IsForward(e)
    requires Loadable(forward)
  {
    multiset(ms) == multiset(seq(|forward|, i requires 0 <= i < |forward| => MigrationOf(forward[i])))
  }

  lemma InsertedAt(ms: seq<Migration>, m: Migration, i: nat)
    requires i <= |ms| && Ascending(ms)
    requires forall k :: 0 <= k < i ==> ms[k].version < m.version
    requires forall k :: i <= k < |ms| ==> m.version < ms[k].version
    ensures var r := ms[..i] + [m] + ms[i..];
            Ascending(r) && multiset(r) == multiset(ms) + multiset{m}
  {
    assert ms == ms[..i] + ms[i..];
  }

  /** Puts a migration where it belongs in an ascending list. */
  method Insert(ms: seq<Migration>, m: Migration) returns (r: seq<Migration>)
    requires Ascending(ms) && forall i :: 0 <= i < |ms| ==> ms[i].version != m.version
    ensures Ascending(r) && multiset(r) == multiset(ms) + multiset{m}
  {
    var i := |ms|;
    while i > 0 && ms[i - 1].version > m.version
      invariant 0 <= i <= |ms|
      invariant forall k :: i <= k < |ms| ==> ms[k].version > m.version
    {
      i := i - 1;
    }
    InsertedAt(ms, m, i);
    r := ms[..i] + [m] + ms[i..];
  }

  method SortByVersion(ms: seq<Migration>) returns (r: seq<Migration>)
    requires forall i, j :: 0 <= i < j < |ms| ==> ms[i].version != ms[j].version
    ensures Ascending(r) && multiset(r) == multiset(ms)
  {
    r := [];
    for i := 0 to |ms|
      invariant Ascending(r) && multiset(r) == multiset(ms[..i])
    {
      forall k | 0 <= k < |r| ensures r[k].version != ms[i].version {
        assert r[k] in multiset(ms[..i]);
      }
      assert ms[..i + 1] == ms[..i] + [ms[i]];
      r := Insert(r, ms[i]);
    }
    assert ms[..|ms|] == ms;
  }

  lemma ForwardNext(entries: seq<Entry>, i: nat)
    requires i < |entries|
    ensures Forward(entries[..i + 1])
         == if IsForward(entries[i]) then Forward(entries[..i]) + [entries[i]] else Forward(entries[..i])
  {
    assert entries[..i + 1][..i] == entries[..i];
  }

  /** An unusable prefix of the directory makes the directory unusable. */
  lemma {:induction false} LoadablePrefix(entries: seq<Entry>, i: nat)
    requires i <= |entries| && Loadable(Forward(entries))
    ensures Loadable(Forward(entries[..i]))
    decreases |entries|
  {
    if i == |entries| {
      assert entries[..i] == entries;
    } else {
      var front := entries[..|entries| - 1];
      assert Forward(front) <= Forward(entries);
      assert forall k :: 0 <= k < |Forward(front)| ==> Forward(front)[k] == Forward(entries)[k];
      LoadablePrefix(front, i);
      assert front[..i] == entries[..i];
    }
  }

  lemma LoadableNext(front: seq<Entry>, e: Entry)
    requires IsForward(e) && (forall x :: x in front ==> IsForward(x)) && Loadable(front)
    ensures forall x :: x in front + [e] ==> IsForward(x)
    ensures Loadable(front + [e])
       <==> VersionOf(e) > 0 && Readable(e) && forall k :: 0 <= k < |front| ==> VersionOf(front[k]) != VersionOf(e)
  {
    var all := front + [e];
    assert all[|front|] == e && forall k :: 0 <= k < |front| ==> all[k] == front[k];
    if Loadable(all) {
      assert forall k :: 0 <= k < |front| ==> VersionOf(all[k]) != VersionOf(all[|front|]);
    }
  }

  function Versions(forward: seq<Entry>): set<nat>
    requires forall e :: e in forward ==> IsForward(e)
  {
    if forward == [] then {} else Versions(forward[..|forward| - 1]) + {VersionOf(forward[|forward| - 1])}
  }

  lemma {:induction false} VersionsHold(forward: seq<Entry>, v: nat)
    requires forall e :: e in forward ==> IsForward(e)
    ensures v in Versions(forward) <==> exists k :: 0 <= k < |forward| && VersionOf(forward[k]) == v
  {
    if forward != [] {
      VersionsHold(forward[..|forward| - 1], v);
    }
  }

  ghost predicate Matches(ms: seq<Migration>, forward: seq<Entry>)
    requires forall e :: e in forward ==> IsForward(e)
  {
    && |ms| == |forward|
    && forall k :: 0 <= k < |forward| ==> Readable(forward[k]) && ms[k] == MigrationOf(forward[k])
  }

  lemma MatchesNext(ms: seq<Migration>, forward: seq<Entry>, e: Entry)
    requires (forall x :: x in forward ==> IsForward(x)) && IsForward(e) && Readable(e)
    requires Matches(ms, forward)
    ensures forall x :: x in forward + [e] ==> IsForward(x)
    ensures Matches(ms + [MigrationOf(e)], forward + [e])
  {
  }

  /** One forward entry: its number, the duplicate check, its contents. */
  method Examine(entry: Entry, seen: set<nat>) returns (r: Result<Migration>)
    requires IsForward(entry)
    ensures r.Success? <==> VersionOf(entry) > 0 && Readable(entry) && VersionOf(entry) !in seen
    ensures r.Success? ==> r.value == MigrationOf(entry)
  {
    var version := Decimal(entry.name[..6]);
    if version <= 0 {
      return Failure(InvalidInput);
    }
    if version in seen {
      return Failure(InvalidInput);
    }
    if entry.data.None? {
      return Failure(InvalidInput);
    }
    if IsBlank(entry.data.value) {
      return Failure(InvalidInput);
    }
    r := Success(Migration(version, entry.name[7..|entry.name| - 7], entry.data.value));
  }

  /** What the scan has gathered from a loadable list of forward entries. */
  ghost predicate Gathered(migrations: seq<Migration>, seen: set<nat>, forward: seq<Entry>)
    requires forall e :: e in forward ==> IsForward(e)
  {
    Loadable(forward) && Matches(migrations, forward) && seen == Versions(forward)
  }

  lemma GatheredNext(migrations: seq<Migration>, seen: set<nat>, forward: seq<Entry>, e: Entry)
    requires (forall x :: x in forward ==> IsForward(x)) && IsForward(e) && Gathered(migrations, seen, forward)
    ensures forall x :: x in forward + [e] ==> IsForward(x)
    ensures Loadable(forward + [e]) <==> VersionOf(e) > 0 && Readable(e) && VersionOf(e) !in seen
    ensures Loadable(forward + [e]) ==> Gathered(migrations + [MigrationOf(e)], seen + {VersionOf(e)}, forward + [e])
  {
    hide WellNamed, Decimal, IsBlank, Matches;
    LoadableNext(forward, e);
    NewVersion(forward, e);
    if Loadable(forward + [e]) {
      MatchesNext(migrations, forward, e);
    }
  }

  lemma NewVersion(forward: seq<Entry>, e: Entry)
    requires (forall x :: x in forward ==> IsForward(x)) && IsForward(e)
    ensures forall x :: x in forward + [e] ==> IsForward(x)
    ensures VersionOf(e) in Versions(forward)
       <==> exists k :: 0 <= k < |forward| && VersionOf(forward[k]) == VersionOf(e)
    ensures Versions(forward + [e]) == Versions(forward) + {VersionOf(e)}
  {
    hide WellNamed, Decimal;
    VersionsHold(forward, VersionOf(e));
    assert (forward + [e])[..|forward|] == forward;
  }

  /** The directory scan, before sorting. */
  method ReadForward(entries: seq<Entry>) returns (r: Result<seq<Migration>>)
    ensures r.Success? <==> Loadable(Forward(entries))
    ensures r.Success? ==> Matches(r.value, Forward(entries))
  {
    var migrations: seq<Migration> := [];
    var seen: set<nat> := {};
    for i := 0 to |entries|
      invariant Gathered(migrations, seen, Forward(entries[..i]))
    {
      ForwardNext(entries, i);
      if !IsForward(entries[i]) {
        continue;
      }
      GatheredNext(migrations, seen, Forward(entries[..i]), entries[i]);
      var m := Examine(entries[i], seen);
      if m.Failure? {
        if Loadable(Forward(entries)) {
          LoadablePrefix(entries, i + 1);
        }
        return Failure(m.error);
      }
      seen := seen + {m.value.version};
      migrations := migrations + [m.value];
    }
    assert entries[..|entries|] == entries;
    r := Success(migrations);
  }

  /** Loading succeeds exactly on a directory with at least one forward migration,
      all of them usable and differently numbered, and then returns exactly those
      in ascending version order. */
  method LoadMigrations(entries: seq<Entry>) returns (r: Result<seq<Migration>>)
    ensures r.Success? <==> Loadable(Forward(entries)) && Forward(entries) != []
    ensures r.Success? ==> Ascending(r.value) && Lists(r.value, Forward(entries))
  {
    r := ReadForward(entries);
    if r.Failure? {
      return;
    }
    ghost var forward := Forward(entries);
    var migrations := r.value;
    assert migrations == seq(|forward|, i requires 0 <= i < |forward| => MigrationOf(forward[i]));
    var sorted := SortByVersion(migrations);
    assert |sorted| == |multiset(sorted)| == |multiset(migrations)| == |migrations|;
    if |sorted| == 0 {
      return Failure(InvalidInput);
    }
    r := Success(sorted);
  }
}

/** Several runners applying one migration list to one database. */
module MigrationRunner {
  import opened Core
  import opened MigrationFiles

  /** The ledger table, and the scripts whose effects are in the schema, in commit order. */
  datatype Schema = Schema(ledger: map<nat, string>, executed: seq<Migration>)

  /** One migration transaction, serialised by the advisory lock; a script that fails rolls it back. */
  function ApplyOneTx(s: Schema, m: Migration, scriptWorks: bool): Result<Schema> {
    if m.version in s.ledger then
      if s.ledger[m.version] == m.name then Success(s) else Failure(StorageError)
    else if !scriptWorks then Failure(StorageError)
    else Success(Schema(s.ledger[m.version := m.name], s.executed + [m]))
  }

  /** A transaction succeeds exactly when the ledger has the migration under this very name, or does not have the
      version and the script works; it adds the entry and runs the script only in the second case. */
  lemma ApplyOneIff(s: Schema, m: Migration, works: bool)
    ensures ApplyOneTx(s, m, works).Success?
       <==> if m.version in s.ledger then s.ledger[m.version] == m.name else works
    ensures ApplyOneTx(s, m, works).Success? ==>
              var after := ApplyOneTx(s, m, works).value;
              && m.version in after.ledger && after.ledger[m.version] == m.name
              && (forall v :: v != m.version ==>
                    (v in after.ledger <==> v in s.ledger) && (v in s.ledger ==> after.ledger[v] == s.ledger[v]))
              && after.executed == if m.version in s.ledger then s.executed else s.executed + [m]
  {
  }

  function LedgerOf(ms: seq<Migration>): map<nat, string> {
    if ms == [] then map[] else LedgerOf(ms[..|ms| - 1])[ms[|ms| - 1].version := ms[|ms| - 1].name]
  }

  /** Exactly the first `k` migrations have been applied, each once and in order. */
  ghost predicate Applied(s: Schema, ms: seq<Migration>, k: nat) {
    k <= |ms| && s == Schema(LedgerOf(ms[..k]), ms[..k])
  }

  lemma {:induction false} LedgerHolds(ms: seq<Migration>, k: nat, i: nat)
    requires Ascending(ms) && k <= |ms| && i < |ms|
    ensures ms[i].version in LedgerOf(ms[..k]) <==> i < k
    ensures i < k ==> LedgerOf(ms[..k])[ms[i].version] == ms[i].name
  {
    if k > 0 {
      LedgerHolds(ms, k - 1, i);
      assert ms[..k][..k - 1] == ms[..k - 1];
    }
  }

  /** A transaction for the migration a runner has reached either finds it applied,
      or is the one that extends the prefix by it. */
  lemma ApplyOneExtendsPrefix(s: Schema, ms: seq<Migration>, k: nat, i: nat, works: bool)
    requires Ascending(ms) && Applied(s, ms, k) && i <= k && i < |ms|
    ensures var r := ApplyOneTx(s, ms[i], works);
            && (r.Success? <==> i < k || works)
            && (r.Success? ==> Applied(r.value, ms, if i < k then k else k + 1))
  {
    LedgerHolds(ms, k, i);
    if i == k {
      assert ms[..k + 1][..k] == ms[..k];
    }
  }

  datatype Step = Start(runner: nat) | Advance(runner: nat, scriptWorks: bool) | Stop(runner: nat)

  /** The database and, for each live runner, the index of its next migration. */
  datatype System = System(schema: Schema, runners: map<nat, nat>)

  function Next(ms: seq<Migration>, s: System, step: Step): System {
    match step
    case Start(r) => s.(runners := s.runners[r := 0])
    case Stop(r) => s.(runners := s.runners - {r})
    case Advance(r, works) =>
      if r !in s.runners || s.runners[r] >= |ms| then s
      else match ApplyOneTx(s.schema, ms[s.runners[r]], works)
        case Success(schema) => System(schema, s.runners[r := s.runners[r] + 1])
        case Failure(_) => s.(runners := s.runners - {r})
  }

  function Run(ms: seq<Migration>, s: System, steps: seq<Step>): System {
    if steps == [] then s else Next(ms, Run(ms, s, steps[..|steps| - 1]), steps[|steps| - 1])
  }

  /** The schema is at a prefix no live runner has passed. */
  ghost predicate Consistent(ms: seq<Migration>, s: System) {
    exists k :: ConsistentAt(ms, s, k)
  }

  ghost predicate ConsistentAt(ms: seq<Migration>, s: System, k: nat) {
    Applied(s.schema, ms, k) && forall r :: r in s.runners ==> s.runners[r] <= k
  }

  lemma NextConsistent(ms: seq<Migration>, s: System, step: Step)
    requires Ascending(ms) && Consistent(ms, s)
    ensures Consistent(ms, Next(ms, s, step))
  {
    var k: nat :| ConsistentAt(ms, s, k);
    var t := Next(ms, s, step);
    if step.Advance? && step.runner in s.runners && s.runners[step.runner] < |ms| {
      var i := s.runners[step.runner];
      ApplyOneExtendsPrefix(s.schema, ms, k, i, step.scriptWorks);
      assert ConsistentAt(ms, t, if i == k && step.scriptWorks then k + 1 else k);
    } else {
      assert ConsistentAt(ms, t, k);
    }
  }

  /** However runners are interleaved, stopped and restarted, the ledger stays a
      prefix of the list with each of its scripts run exactly once, in order; and a
      runner that reaches the end has seen the whole list applied. */
  lemma {:induction false} EveryRunAppliesAPrefix(ms: seq<Migration>, s: System, steps: seq<Step>)
    requires Ascending(ms) && Consistent(ms, s)
    ensures var t := Run(ms, s, steps);
            && Consistent(ms, t)
            && (forall r :: r in t.runners && t.runners[r] == |ms| ==> Applied(t.schema, ms, |ms|))
  {
    if steps != [] {
      EveryRunAppliesAPrefix(ms, s, steps[..|steps| - 1]);
      NextConsistent(ms, Run(ms, s, steps[..|steps| - 1]), steps[|steps| - 1]);
    }
    var t := Run(ms, s, steps);
    var k: nat :| ConsistentAt(ms, t, k);
  }

  /** A database no migration has touched is a consistent start. */
  lemma StartsConsistent(ms: seq<Migration>)
    ensures Consistent(ms, System(Schema(map[], []), map[]))
  {
    assert ConsistentAt(ms, System(Schema(map[], []), map[]), 0);
  }

  lemma {:induction false} RunAppend(ms: seq<Migration>, s: System, a: seq<Step>, b: seq<Step>)
    ensures Run(ms, s, a + b) == Run(ms, Run(ms, s, a), b)
  {
    if b == [] {
      assert a + b == a;
    } else {
      RunAppend(ms, s, a, b[..|b| - 1]);
      assert (a + b)[..|a + b| - 1] == a + b[..|b| - 1];
    }
  }

  /** How many working turns a runner gets. */
  function Turns(steps: seq<Step>, r: nat): nat {
    if steps == [] then 0
    else Turns(steps[..|steps| - 1], r) + if steps[|steps| - 1] == Advance(r, true) then 1 else 0
  }

  /** All that runner `r` does is advance with working scripts; the other runners do anything. */
  ghost predicate OnlyWorks(steps: seq<Step>, r: nat) {
    forall i :: 0 <= i < |steps| && steps[i].runner == r ==> steps[i] == Advance(r, true)
  }

  lemma TurnMovesOn(ms: seq<Migration>, s: System, step: Step, r: nat)
    requires Ascending(ms) && Consistent(ms, s) && r in s.runners && s.runners[r] <= |ms|
    requires step.runner == r ==> step == Advance(r, true)
    ensures var t := Next(ms, s, step);
            && r in t.runners
            && t.runners[r] == if step.runner == r && s.runners[r] < |ms| then s.runners[r] + 1 else s.runners[r]
  {
    if step.runner == r && s.runners[r] < |ms| {
      var k: nat :| ConsistentAt(ms, s, k);
      ApplyOneExtendsPrefix(s.schema, ms, k, s.runners[r], true);
    }
  }

  /** A runner that has just started is, after its working turns, as far down the list as it had turns. */
  lemma {:induction false} TurnsReach(ms: seq<Migration>, s: System, steps: seq<Step>, r: nat)
    requires Ascending(ms) && Consistent(ms, s) && r in s.runners && s.runners[r] == 0 && OnlyWorks(steps, r)
    ensures var t := Run(ms, s, steps);
            r in t.runners && t.runners[r] == if Turns(steps, r) < |ms| then Turns(steps, r) else |ms|
  {
    if steps != [] {
      var front, last := steps[..|steps| - 1], steps[|steps| - 1];
      TurnsReach(ms, s, front, r);
      EveryRunAppliesAPrefix(ms, s, front);
      assert last.runner == r ==> last == Advance(r, true);
      TurnMovesOn(ms, Run(ms, s, front), last, r);
    }
  }

  /** From a database no migration has touched, whatever runners did and wherever they stopped: a runner
      that starts and gets as many working turns as the list is long completes it, with other
      runners' steps anywhere in between. */
  lemma {:induction false} RerunCompletes(ms: seq<Migration>, before: seq<Step>, r: nat, steps: seq<Step>)
    requires Ascending(ms) && OnlyWorks(steps, r) && Turns(steps, r) >= |ms|
    ensures Applied(Run(ms, System(Schema(map[], []), map[]), before + [Start(r)] + steps).schema, ms, |ms|)
  {
    var start := System(Schema(map[], []), map[]);
    StartsConsistent(ms);
    RunAppend(ms, start, before + [Start(r)], steps);
    EveryRunAppliesAPrefix(ms, start, before + [Start(r)]);
    assert (before + [Start(r)])[..|before|] == before;
    var started := Run(ms, start, before + [Start(r)]);
    TurnsReach(ms, started, steps, r);
    EveryRunAppliesAPrefix(ms, started, steps);
  }

  function Min(a: nat, b: nat): nat {
    if a < b then a else b
  }

  /** Where a pass over `n` migrations ends that has reached migration `i`, with the first `k`
      applied: before its transaction `i` other runners apply the next `others[i]`. */
  function PassEnd(n: nat, k: nat, i: nat, others: seq<nat>, works: seq<bool>): nat
    requires i <= k <= n == |others| == |works|
    decreases n - i
  {
    if i == n then n
    else
      var ahead := Min(n, k + others[i]);
      if i < ahead then PassEnd(n, ahead, i + 1, others, works)
      else if works[i] then PassEnd(n, i + 1, i + 1, others, works)
      else i
  }

  /** A pass undoes nothing and stops only at a script that fails in it; with no other runner
      about, it completes the list exactly when every script left to run works. */
  lemma {:induction false} PassEnds(n: nat, k: nat, i: nat, others: seq<nat>, works: seq<bool>)
    requires i <= k <= n == |others| == |works|
    ensures k <= PassEnd(n, k, i, others, works) <= n
    ensures PassEnd(n, k, i, others, works) < n ==> !works[PassEnd(n, k, i, others, works)]
    ensures (forall j :: i <= j < n ==> others[j] == 0) ==>
              (PassEnd(n, k, i, others, works) == n <==> forall j :: k <= j < n ==> works[j])
    decreases n - i
  {
    if i < n {
      var ahead := Min(n, k + others[i]);
      if i < ahead {
        PassEnds(n, ahead, i + 1, others, works);
      } else if works[i] {
        PassEnds(n, i + 1, i + 1, others, works);
      }
    }
  }

  /** The database as the connection of one runner sees it. */
  class Connection {
    var ledger: map<nat, string>
    var executed: seq<Migration>

    function State(): Schema
      reads this
    {
      Schema(ledger, executed)
    }

    /** Looks the version up, runs the script, records it; undone as a whole when anything fails. */
    method ApplyOne(m: Migration, scriptWorks: bool) returns (ok: bool)
      modifies this
      ensures var r := ApplyOneTx(old(State()), m, scriptWorks);
              ok == r.Success? && State() == if ok then r.value else old(State())
    {
      if m.version in ledger {
        ok := ledger[m.version] == m.name;
        return;
      }
      if !scriptWorks {
        return false;
      }
      executed := executed + [m];
      ledger := ledger[m.version := m.name];
      ok := true;
    }

    /** Other runners commit the next migrations, up to the end of the list. */
    method OthersApply(ms: seq<Migration>, count: nat)
      requires Ascending(ms) && Applied(State(), ms, |executed|)
      modifies this
      ensures Applied(State(), ms, Min(|ms|, old(|executed|) + count))
    {
      for j := 0 to count
        invariant Applied(State(), ms, Min(|ms|, old(|executed|) + j))
      {
        if |executed| < |ms| {
          ApplyOneExtendsPrefix(State(), ms, |executed|, |executed|, true);
          var applied := ApplyOne(ms[|executed|], true);
          assert applied;
        }
      }
    }

    /** One pass over the list, from any prefix and with other runners' transactions before each of its own. */
    method ApplyMigrations(ms: seq<Migration>, works: seq<bool>, others: seq<nat>) returns (ok: bool)
      requires Ascending(ms) && |works| == |others| == |ms| && Applied(State(), ms, |executed|)
      modifies this
      ensures Applied(State(), ms, PassEnd(|ms|, old(|executed|), 0, others, works))
      ensures ok <==> ms != [] && PassEnd(|ms|, old(|executed|), 0, others, works) == |ms|
    {
      if ms == [] {
        return false;
      }
      ghost var end := PassEnd(|ms|, |executed|, 0, others, works);
      for i := 0 to |ms|
        invariant i <= |executed| && Applied(State(), ms, |executed|)
        invariant PassEnd(|ms|, |executed|, i, others, works) == end
      {
        OthersApply(ms, others[i]);
        ApplyOneExtendsPrefix(State(), ms, |executed|, i, works[i]);
        var applied := ApplyOne(ms[i], works[i]);
        if !applied {
          return false;
        }
      }
      ok := true;
    }
  }
}
