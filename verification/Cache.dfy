/** The cache that shares one asynchronous fetch among all who wait for a key (`AsyncCache`). */
module Cache {
  import opened Collections

  datatype Entry = Entry(value: Option<int>, inProgress: bool, waiters: seq<nat>)

  /** A call of `Complete`. */
  datatype Completion = Completion(key: int, value: int)

  /** The value a key was completed with first. */
  function First(log: seq<Completion>, key: int): Option<int> {
    if log == [] then None else if log[0].key == key then Some(log[0].value) else First(log[1..], key)
  }

  /** The value a key was completed with last. */
  function Last(log: seq<Completion>, key: int): Option<int> {
    if log == [] then None
    else if log[|log| - 1].key == key then Some(log[|log| - 1].value)
    else Last(log[..|log| - 1], key)
  }

  /**
   * The values owed to someone who asked for a key when `joined` completions had happened: the value
   * cached at that time, or else that of the first later completion of the key.
   */
  function Owed(log: seq<Completion>, key: int, joined: nat): seq<int>
    requires joined <= |log|
  {
    var cached := Last(log[..joined], key);
    var later := First(log[joined..], key);
    if cached.Some? then [cached.value] else if later.Some? then [later.value] else []
  }

  lemma {:induction false} FirstSnoc(log: seq<Completion>, c: Completion, key: int)
    ensures First(log + [c], key) ==
            if First(log, key).Some? then First(log, key) else if c.key == key then Some(c.value) else None
  {
    if log == [] {
      assert log + [c] == [c] && [c][1..] == [];
    } else {
      assert (log + [c])[1..] == log[1..] + [c];
      FirstSnoc(log[1..], c, key);
    }
  }

  lemma {:induction false} LastSplit(log: seq<Completion>, key: int, n: nat)
    requires n <= |log|
    ensures Last(log, key).Some? <==> Last(log[..n], key).Some? || First(log[n..], key).Some?
  {
    if n == |log| {
      assert log[..n] == log;
    } else {
      var rest, c := log[..|log| - 1], log[|log| - 1];
      LastSplit(rest, key, n);
      assert rest[..n] == log[..n] && log[n..] == rest[n..] + [c];
      FirstSnoc(rest[n..], c, key);
    }
  }

  /** A completion settles what is owed to those still waiting for its key, and to nobody else. */
  lemma OwedSnoc(log: seq<Completion>, c: Completion, key: int, joined: nat)
    requires joined <= |log|
    ensures Owed(log + [c], key, joined) ==
            if Owed(log, key, joined) == [] && c.key == key then [c.value] else Owed(log, key, joined)
  {
    assert (log + [c])[..joined] == log[..joined] && (log + [c])[joined..] == log[joined..] + [c];
    FirstSnoc(log[joined..], c, key);
  }

  lemma LastSnoc(log: seq<Completion>, c: Completion, key: int)
    ensures Last(log + [c], key) == if c.key == key then Some(c.value) else Last(log, key)
  {
    assert (log + [c])[..|log|] == log;
  }

  predicate Ascending(s: seq<int>) {
    forall i, j :: 0 <= i < j < |s| ==> s[i] < s[j]
  }

  lemma {:induction false} HasSmallest(keys: set<int>, some: int) returns (key: int)
    requires some in keys
    ensures key in keys && forall other :: other in keys ==> key <= other
    decreases |keys|
  {
    var rest := keys - {some};
    key := some;
    if other :| other in rest {
      var least := HasSmallest(rest, other);
      key := if least < key then least else key;
    }
    assert keys == rest + (keys - rest);
  }

  /** A wait: the key asked for, the number of earlier completions, and the values it has been given. */
  datatype Waiting = Waiting(key: int, joined: nat, given: seq<int>)

  predicate Startable(entries: map<int, Entry>, key: int) {
    key in entries && entries[key].value.None? && !entries[key].inProgress && entries[key].waiters != []
  }

  function EntryAt(entries: map<int, Entry>, key: int): Entry {
    if key in entries then entries[key] else Entry(None, false, [])
  }

  /** The entries after an attempt to start a key's fetch: the entry is there in any case. */
  function Started(entries: map<int, Entry>, key: int, start: bool): map<int, Entry> {
    var entry := EntryAt(entries, key);
    entries[key := entry.(inProgress := entry.inProgress || start)]
  }

  /** An entry holds its last completion; only an entry without a value has waiters or a fetch in progress. */
  ghost predicate EntryOk(entry: Entry, key: int, log: seq<Completion>, started: seq<int>) {
    && entry.value == Last(log, key)
    && (entry.value.Some? ==> !entry.inProgress && entry.waiters == [])
    && multiset(started)[key] <= 1
    && (entry.inProgress ==> multiset(started)[key] == 1)
    && (multiset(started)[key] == 1 ==> entry.inProgress || entry.value.Some?)
    && Ascending(entry.waiters)
  }

  ghost predicate ListOk(entry: Entry, key: int, waits: seq<Waiting>) {
    forall n :: n in entry.waiters ==> n < |waits| && waits[n].key == key
  }

  /** Everyone has been given exactly what is owed, and is listed exactly while nothing is. */
  ghost predicate WaitingOk(w: Waiting, n: nat, entry: Entry, log: seq<Completion>) {
    && w.joined <= |log|
    && w.given == Owed(log, w.key, w.joined)
    && (n in entry.waiters <==> w.given == [])
  }

  ghost predicate EntriesOk(entries: map<int, Entry>, log: seq<Completion>, started: seq<int>) {
    forall key :: EntryOk(EntryAt(entries, key), key, log, started)
  }

  ghost predicate WaitsOk(waits: seq<Waiting>, entries: map<int, Entry>, log: seq<Completion>) {
    && (forall n :: 0 <= n < |waits| ==> WaitingOk(waits[n], n, EntryAt(entries, waits[n].key), log))
    && (forall key :: ListOk(EntryAt(entries, key), key, waits))
  }

  lemma UpdateKeeps(entries: map<int, Entry>, key: int, entry: Entry, log: seq<Completion>, started: seq<int>)
    requires EntriesOk(entries, log, started) && EntryOk(entry, key, log, started)
    ensures EntriesOk(entries[key := entry], log, started)
  {
    var after := entries[key := entry];
    forall k ensures EntryOk(EntryAt(after, k), k, log, started) {
      assert EntryOk(EntryAt(entries, k), k, log, started);
    }
  }

  lemma StartKeeps(entries: map<int, Entry>, key: int, log: seq<Completion>, started: seq<int>)
    requires EntriesOk(entries, log, started)
    requires EntryAt(entries, key).value.None? && !EntryAt(entries, key).inProgress
    ensures key !in started
    ensures EntriesOk(entries[key := EntryAt(entries, key).(inProgress := true)], log, started + [key])
  {
    assert EntryOk(EntryAt(entries, key), key, log, started);
    var after := entries[key := EntryAt(entries, key).(inProgress := true)];
    forall k ensures EntryOk(EntryAt(after, k), k, log, started + [key]) {
      assert EntryOk(EntryAt(entries, k), k, log, started);
    }
  }

  lemma CompleteKeepsEntries(entries: map<int, Entry>, c: Completion, log: seq<Completion>, started: seq<int>)
    requires EntriesOk(entries, log, started)
    ensures EntriesOk(entries[c.key := Entry(Some(c.value), false, [])], log + [c], started)
  {
    var after := entries[c.key := Entry(Some(c.value), false, [])];
    forall k ensures EntryOk(EntryAt(after, k), k, log + [c], started) {
      assert EntryOk(EntryAt(entries, k), k, log, started);
      LastSnoc(log, c, k);
    }
  }

  /** Changes that leave every list alone leave the waits alone. */
  lemma SameLists(waits: seq<Waiting>, entries: map<int, Entry>, key: int, entry: Entry, log: seq<Completion>)
    requires WaitsOk(waits, entries, log) && entry.waiters == EntryAt(entries, key).waiters
    ensures WaitsOk(waits, entries[key := entry], log)
  {
    var after := entries[key := entry];
    forall n | 0 <= n < |waits| ensures WaitingOk(waits[n], n, EntryAt(after, waits[n].key), log) {
      assert WaitingOk(waits[n], n, EntryAt(entries, waits[n].key), log);
    }
    forall k ensures ListOk(EntryAt(after, k), k, waits) { assert ListOk(EntryAt(entries, k), k, waits); }
  }

  lemma JoinKeeps(waits: seq<Waiting>, entries: map<int, Entry>, key: int, entry: Entry, log: seq<Completion>)
    requires WaitsOk(waits, entries, log) && Last(log, key).None?
    requires EntryAt(entries, key).(waiters := EntryAt(entries, key).waiters + [|waits|]) == entry
    ensures WaitsOk(waits + [Waiting(key, |log|, [])], entries[key := entry], log)
  {
    var after := entries[key := entry];
    var joined := waits + [Waiting(key, |log|, [])];
    assert log[..|log|] == log;
    forall n | 0 <= n < |joined| ensures WaitingOk(joined[n], n, EntryAt(after, joined[n].key), log) {
      if n < |waits| { assert WaitingOk(waits[n], n, EntryAt(entries, waits[n].key), log); }
    }
    forall k ensures ListOk(EntryAt(after, k), k, joined) { assert ListOk(EntryAt(entries, k), k, waits); }
  }

  lemma CachedKeeps(waits: seq<Waiting>, entries: map<int, Entry>, key: int, log: seq<Completion>, value: int)
    requires WaitsOk(waits, entries, log) && Last(log, key) == Some(value)
    ensures WaitsOk(waits + [Waiting(key, |log|, [value])], entries, log)
  {
    var joined := waits + [Waiting(key, |log|, [value])];
    assert log[..|log|] == log;
    assert ListOk(EntryAt(entries, key), key, waits);
    forall n | 0 <= n < |joined| ensures WaitingOk(joined[n], n, EntryAt(entries, joined[n].key), log) {
      if n < |waits| { assert WaitingOk(waits[n], n, EntryAt(entries, waits[n].key), log); }
    }
    forall k ensures ListOk(EntryAt(entries, k), k, joined) { assert ListOk(EntryAt(entries, k), k, waits); }
  }

  /** The waits after everyone in a list has been given a value. */
  function Given(waits: seq<Waiting>, list: seq<nat>, value: int): seq<Waiting> {
    seq(|waits|, n requires 0 <= n < |waits| =>
          if n in list then waits[n].(given := waits[n].given + [value]) else waits[n])
  }

  lemma GivenNext(waits: seq<Waiting>, list: seq<nat>, i: nat, value: int)
    requires i < |list| && Ascending(list) && forall n :: n in list ==> n < |waits|
    ensures list[i] in list
    ensures var before, n := Given(waits, list[..i], value), list[i];
            before[n := before[n].(given := before[n].given + [value])] == Given(waits, list[..i + 1], value)
  {
    assert list[..i + 1] == list[..i] + [list[i]] && list[i] in list;
    assert list[i] !in list[..i];
  }

  lemma CompleteKeepsWaits(waits: seq<Waiting>, entries: map<int, Entry>, c: Completion, log: seq<Completion>)
    requires WaitsOk(waits, entries, log)
    ensures WaitsOk(Given(waits, EntryAt(entries, c.key).waiters, c.value),
                    entries[c.key := Entry(Some(c.value), false, [])], log + [c])
  {
    var after := entries[c.key := Entry(Some(c.value), false, [])];
    var given := Given(waits, EntryAt(entries, c.key).waiters, c.value);
    forall n | 0 <= n < |given| ensures WaitingOk(given[n], n, EntryAt(after, given[n].key), log + [c]) {
      assert WaitingOk(waits[n], n, EntryAt(entries, waits[n].key), log);
      OwedSnoc(log, c, waits[n].key, waits[n].joined);
    }
    forall k ensures ListOk(EntryAt(after, k), k, given) { assert ListOk(EntryAt(entries, k), k, waits); }
  }

  /** What a miss callback may do with the cache, besides what does not concern it. */
  datatype Action = Ask(key: int) | Start(key: int) | Prefetch(key: int) | Fill(key: int, value: int)

  /** Waits only come, and only what they were given changes. */
  predicate Grows(before: seq<Waiting>, after: seq<Waiting>) {
    && |before| <= |after|
    && forall n :: 0 <= n < |before| ==> after[n].key == before[n].key && after[n].joined == before[n].joined
  }

  /** A cache with its history. */
  datatype Cached = Cached(entries: map<int, Entry>, waits: seq<Waiting>, log: seq<Completion>, started: seq<int>)

  /** A new wait is owed what is cached or, listed, the next completion. */
  function Joined(c: Cached, key: int): Cached {
    var entry := EntryAt(c.entries, key);
    var list := if entry.value.Some? then [] else entry.waiters + [|c.waits|];
    c.(entries := c.entries[key := entry.(waiters := list)],
       waits := c.waits + [Waiting(key, |c.log|, Owed(c.log, key, |c.log|))])
  }

  function StartedIf(c: Cached, key: int, start: bool): Cached {
    c.(entries := Started(c.entries, key, start), started := c.started + if start then [key] else [])
  }

  /** What one action of a callback does. */
  function After(c: Cached, action: Action): Cached {
    match action
    case Ask(key) => Joined(c, key)
    case Start(key) => StartedIf(c, key, Startable(c.entries, key))
    case Prefetch(key) => StartedIf(c, key, key !in c.started && Last(c.log, key).None?)
    case Fill(key, value) =>
      if key !in c.entries then c
      else c.(entries := c.entries[key := Entry(Some(value), false, [])],
              waits := Given(c.waits, c.entries[key].waiters, value), log := c.log + [Completion(key, value)])
  }

  function AfterAll(c: Cached, actions: seq<Action>): Cached
    decreases |actions|
  {
    if actions == [] then c else AfterAll(After(c, actions[0]), actions[1..])
  }

  lemma {:induction false} StartsStay(c: Cached, actions: seq<Action>, key: int)
    requires key in c.started
    ensures key in AfterAll(c, actions).started
    decreases |actions|
  {
    if actions != [] { StartsStay(After(c, actions[0]), actions[1..], key); }
  }

  lemma FirstStarts(c: Cached, actions: seq<Action>, key: int)
    requires actions != [] && actions[0] == Start(key) && (Startable(c.entries, key) || key in c.started)
    ensures key in AfterAll(c, actions).started
  {
    StartsStay(After(c, actions[0]), actions[1..], key);
  }

  /** Waits are numbered in the order in which they come. */
  class AsyncCache {
    var entries: map<int, Entry>
    var nextWaiter: nat

    // All waits, completions and successful starts so far.
    ghost var waits: seq<Waiting>
    ghost var log: seq<Completion>
    ghost var started: seq<int>

    ghost predicate Valid()
      reads this
    {
      nextWaiter == |waits| && EntriesOk(entries, log, started) && WaitsOk(waits, entries, log)
    }

    ghost function View(): Cached
      reads this
    {
      Cached(entries, waits, log, started)
    }

    constructor ()
      ensures Valid() && entries == map[] && waits == [] && log == [] && started == []
    {
      entries, nextWaiter := map[], 0;
      waits, log, started := [], [], [];
    }

    /**
     * The wait is given the cached value at once, and then nothing else happens; or it joins the entry and runs the
     * miss callback, whatever that does. What the wait is given is what it is owed, as `Valid` says.
     */
    method Wait(key: int, onMiss: seq<Action>) returns (n: nat)
      requires Valid()
      modifies this
      ensures Valid() && n == old(|waits|) && old(log) <= log && old(started) <= started
      ensures Grows(old(waits) + [Waiting(key, old(|log|), [])], waits)
      ensures var cached := Last(old(log), key);
              cached.Some? ==> log == old(log) && started == old(started)
                               && waits == old(waits) + [Waiting(key, |log|, [cached.value])]
      ensures Last(old(log), key).None? ==> View() == AfterAll(Joined(old(View()), key), onMiss)
      ensures Last(old(log), key).None? && onMiss != [] && onMiss[0] == Start(key) ==> key in started
    {
      assert EntryOk(EntryAt(entries, key), key, log, started);
      assert log[..|log|] == log;
      var missed := EntryAt(entries, key).value.None?;
      n := Join(key);
      if missed {
        assert Startable(entries, key) || key in started by {
          assert EntryOk(EntryAt(entries, key), key, log, started);
        }
        if onMiss != [] && onMiss[0] == Start(key) { FirstStarts(View(), onMiss, key); }
        Perform(onMiss);
      }
    }

    /** The callback of the cache's users tries to start the fetch; of all who wait for a key only the first does. */
    method WaitAndStart(key: int) returns (n: nat, starts: bool)
      requires Valid()
      modifies this`entries, this`nextWaiter, this`waits, this`started
      ensures Valid() && n == old(|waits|) && waits == old(waits) + [Waiting(key, |log|, Owed(log, key, |log|))]
      ensures starts <==> Owed(log, key, |log|) == [] && key !in old(started)
      ensures started == old(started) + if starts then [key] else []
    {
      assert EntryOk(EntryAt(entries, key), key, log, started);
      assert log[..|log|] == log;
      starts := false;
      var missed := EntryAt(entries, key).value.None?;
      n := Join(key);
      if missed { starts := TryStart(key); }
    }

    /** A callback at work: each of its actions is done, one after the other. */
    method Perform(actions: seq<Action>)
      requires Valid()
      modifies this
      ensures Valid() && View() == AfterAll(old(View()), actions)
      ensures Grows(old(waits), waits) && old(log) <= log && old(started) <= started
    {
      var i := 0;
      while i < |actions|
        invariant 0 <= i <= |actions| && Valid() && Grows(old(waits), waits)
        invariant old(log) <= log && old(started) <= started
        invariant AfterAll(View(), actions[i..]) == AfterAll(old(View()), actions)
      {
        assert actions[i..][1..] == actions[i + 1..];
        Act(actions[i]);
        i := i + 1;
      }
    }

    /** A key without an entry cannot be completed. */
    method Act(action: Action)
      requires Valid()
      modifies this
      ensures Valid() && View() == After(old(View()), action)
      ensures Grows(old(waits), waits) && old(log) <= log && old(started) <= started
    {
      match action {
        case Ask(key) => var n := Join(key);
        case Start(key) => var ok := TryStart(key);
        case Prefetch(key) => var ok := TryStartPrefetch(key);
        case Fill(key, value) => if key in entries { Complete(key, value); }
      }
    }

    /** The wait is given the cached value at once, or joins the entry. */
    method Join(key: int) returns (n: nat)
      requires Valid()
      modifies this`entries, this`nextWaiter, this`waits
      ensures Valid() && n == old(|waits|)
      ensures waits == old(waits) + [Waiting(key, |log|, Owed(log, key, |log|))]
      ensures var entry := EntryAt(old(entries), key);
              var list := if entry.value.Some? then [] else entry.waiters + [n];
              entries == old(entries)[key := entry.(waiters := list)]
    {
      n := nextWaiter;
      nextWaiter := nextWaiter + 1;
      var entry := EntryAt(entries, key);
      assert EntryOk(entry, key, log, started);
      assert log[..|log|] == log;
      if entry.value.Some? {
        CachedKeeps(waits, entries, key, log, entry.value.value);
        waits := waits + [Waiting(key, |log|, [entry.value.value])];
      } else {
        assert ListOk(entry, key, waits);
        assert forall i :: 0 <= i < |entry.waiters| ==> entry.waiters[i] in entry.waiters;
        entry := entry.(waiters := entry.waiters + [n]);
        UpdateKeeps(entries, key, entry, log, started);
        JoinKeeps(waits, entries, key, entry, log);
        waits := waits + [Waiting(key, |log|, [])];
        entries := entries[key := entry];
      }
    }

    /** Exactly the keys whose fetch may be started, in ascending order. */
    method PendingKeys() returns (result: seq<int>)
      ensures forall key :: key in result <==> Startable(entries, key)
      ensures Ascending(result)
    {
      result := [];
      var rest := entries.Keys;
      while rest != {}
        invariant rest <= entries.Keys && Ascending(result)
        invariant forall key :: key in result <==> Startable(entries, key) && key !in rest
        invariant forall key, later :: key in result && later in rest ==> key < later
        decreases |rest|
      {
        ghost var some := Element(rest);
        ghost var least := HasSmallest(rest, some);
        var key :| key in rest && forall other :: other in rest ==> key <= other;
        if entries[key].value.None? && !entries[key].inProgress && entries[key].waiters != [] {
          assert forall i :: 0 <= i < |result| ==> result[i] in result;
          result := result + [key];
        }
        rest := rest - {key};
      }
    }

    /** Starts the fetch somebody waits for, unless it was started before. */
    method TryStart(key: int) returns (ok: bool)
      requires Valid()
      modifies this`entries, this`started
      ensures Valid() && ok == old(Startable(entries, key))
      ensures started == old(started) + if ok then [key] else []
      ensures ok ==> key !in old(started)
      ensures entries == Started(old(entries), key, ok)
    {
      var entry := EntryAt(entries, key);
      ok := entry.value.None? && !entry.inProgress && entry.waiters != [];
      SetStarted(key, ok);
    }

    /** Starts a fetch nobody waits for yet, unless the key has a value or a fetch in progress. */
    method TryStartPrefetch(key: int) returns (ok: bool)
      requires Valid()
      modifies this`entries, this`started
      ensures Valid() && started == old(started) + if ok then [key] else []
      ensures ok <==> key !in old(started) && Last(log, key).None?
      ensures entries == Started(old(entries), key, ok)
    {
      var entry := EntryAt(entries, key);
      assert EntryOk(entry, key, log, started);
      ok := entry.value.None? && !entry.inProgress;
      SetStarted(key, ok);
    }

    /** Marks the fetch of an idle key as started; the entry is created in any case. */
    method SetStarted(key: int, start: bool)
      requires Valid()
      requires start ==> EntryAt(entries, key).value.None? && !EntryAt(entries, key).inProgress
      modifies this`entries, this`started
      ensures Valid() && started == old(started) + if start then [key] else []
      ensures start ==> key !in old(started)
      ensures entries == Started(old(entries), key, start)
    {
      var entry := EntryAt(entries, key);
      if start {
        StartKeeps(entries, key, log, started);
        entry := entry.(inProgress := true);
        started := started + [key];
      } else {
        assert EntryOk(entry, key, log, started);
        UpdateKeeps(entries, key, entry, log, started);
      }
      SameLists(waits, entries, key, entry, log);
      entries := entries[key := entry];
    }

    /** Everyone waiting for the key is given the value; the entry must exist. */
    method Complete(key: int, value: int)
      requires Valid() && key in entries
      modifies this`entries, this`waits, this`log
      ensures Valid() && log == old(log) + [Completion(key, value)]
      ensures entries == old(entries)[key := Entry(Some(value), false, [])]
      ensures waits == Given(old(waits), old(entries)[key].waiters, value)
    {
      CompleteKeepsEntries(entries, Completion(key, value), log, started);
      CompleteKeepsWaits(waits, entries, Completion(key, value), log);
      var list := entries[key].waiters;
      assert Ascending(list) by { assert EntryOk(EntryAt(entries, key), key, log, started); }
      assert ListOk(EntryAt(entries, key), key, waits);
      entries := entries[key := Entry(Some(value), false, [])];
      log := log + [Completion(key, value)];
      var i := 0;
      while i < |list|
        modifies this`waits
        invariant 0 <= i <= |list| && waits == Given(old(waits), list[..i], value)
      {
        GivenNext(old(waits), list, i, value);
        waits := waits[list[i] := waits[list[i]].(given := waits[list[i]].given + [value])];
        i := i + 1;
      }
      assert list[..|list|] == list;
    }

    /** A fetch is started at most once per key, whatever happens. */
    lemma StartedOnce(key: int)
      requires Valid()
      ensures multiset(started)[key] <= 1
    {
      assert EntryOk(EntryAt(entries, key), key, log, started);
    }

    /** Nobody waits in vain: an entry with waiters has no value, and its fetch is in progress or may be started. */
    lemma WaitersCanBeServed(key: int)
      requires Valid() && EntryAt(entries, key).waiters != []
      ensures EntryAt(entries, key).value.None? && (EntryAt(entries, key).inProgress <==> !Startable(entries, key))
    {
      assert EntryOk(EntryAt(entries, key), key, log, started);
    }

    /** Every wait has been given the cached value or that of the first later completion, and nothing else. */
    lemma GivenWhatIsOwed(n: nat)
      requires Valid() && n < |waits|
      ensures waits[n].joined <= |log| && waits[n].given == Owed(log, waits[n].key, waits[n].joined)
      ensures |waits[n].given| == if Last(log, waits[n].key).Some? then 1 else 0
    {
      var w := waits[n];
      assert WaitingOk(w, n, EntryAt(entries, w.key), log);
      LastSplit(log, w.key, w.joined);
    }
  }
}
