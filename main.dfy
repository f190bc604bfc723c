/** The sequential logic of the program's entry point: building the list of
    exchanges, and the market registry that each exchange's refresh loop
    writes and the reporter reads. Tasks, timers, locks and printing are not
    modelled: a refresh loop is run over the sequence of results its ticks
    obtain, and the registry is one object whose methods are the lock-guarded
    operations. */
module EntryPoint {
  import opened Prelude
  import opened Exchanges
  import opened Ftx

  // ---------------------------------------------------------------------------
  // init_exchanges
  // ---------------------------------------------------------------------------

  /** The exchange names the program is built with. */
  const ExchangeList: seq<string> := ["ftx", "ftx-test"]

  /** The names that have a constructor. */
  const KnownNames: set<string> := {"ftx", "ftx-test"}

  /** The ids one list entry pushes: the loop body tests the entry against
      each known name in turn, with two independent `if`s. */
  function Dispatched(e: string): seq<string>
  {
    (if e == "ftx" then [e] else []) + (if e == "ftx-test" then [e] else [])
  }

  /** The ids pushed for a whole list, entry after entry. */
  function Pushed(list: seq<string>): seq<string>
  {
    if list == [] then [] else Pushed(list[..|list| - 1]) + Dispatched(list[|list| - 1])
  }

  /** The entries of list that are known names, in list order (a reference
      definition, independent of the loop's shape). */
  function KnownEntries(list: seq<string>): (r: seq<string>)
    ensures |r| <= |list|
    ensures forall x :: x in r <==> x in list && x in KnownNames
  {
    if list == [] then []
    else (if list[0] in KnownNames then [list[0]] else []) + KnownEntries(list[1..])
  }

  /** Since the two names differ, an entry pushes one exchange when it is a
      known name and none otherwise. */
  lemma DispatchedAtMostOne(e: string)
    ensures Dispatched(e) == if e in KnownNames then [e] else []
    ensures |Dispatched(e)| <= 1
  {
  }

  lemma {:induction false} KnownEntriesAppend(a: seq<string>, b: seq<string>)
    ensures KnownEntries(a + b) == KnownEntries(a) + KnownEntries(b)
  {
    if a != [] {
      assert (a + b)[1..] == a[1..] + b;
      KnownEntriesAppend(a[1..], b);
    } else {
      assert a + b == b;
    }
  }

  /** The loop pushes exactly the known entries, in order, each once. */
  lemma {:induction false} PushedIsKnownEntries(list: seq<string>)
    ensures Pushed(list) == KnownEntries(list)
  {
    if list != [] {
      var init, last := list[..|list| - 1], list[|list| - 1];
      PushedIsKnownEntries(init);
      DispatchedAtMostOne(last);
      assert list == init + [last];
      KnownEntriesAppend(init, [last]);
      assert KnownEntries([last]) == Dispatched(last) by {
        assert [last][1..] == [];
      }
    }
  }

  /** `init_exchanges`' loop over a list of names: one exchange per entry that
      is a known name, built from that name, in list order. */
  method InitExchangesFrom(list: seq<string>) returns (exchanges: seq<Ftx>)
    ensures |exchanges| == |KnownEntries(list)|
    ensures forall n :: 0 <= n < |exchanges| ==> exchanges[n] == Build(KnownEntries(list)[n])
  {
    exchanges := [];
    for k := 0 to |list|
      invariant |exchanges| == |Pushed(list[..k])|
      invariant forall n :: 0 <= n < |exchanges| ==> exchanges[n] == Build(Pushed(list[..k])[n])
    {
      var e := list[k];
      assert list[..k + 1][..k] == list[..k];
      if e == "ftx" {
        exchanges := exchanges + [Build(e)];
      }
      if e == "ftx-test" {
        exchanges := exchanges + [Build(e)];
      }
    }
    assert list[..|list|] == list;
    PushedIsKnownEntries(list);
  }

  /** `init_exchanges`: an `ftx` and an `ftx-test` exchange, in that order,
      each active and answering to its name. */
  method InitExchanges() returns (exchanges: seq<Ftx>)
    ensures |exchanges| == 2
    ensures GetId(exchanges[0]) == "ftx" && GetId(exchanges[1]) == "ftx-test"
    ensures forall ex :: ex in exchanges ==> IsActive(ex)
  {
    exchanges := InitExchangesFrom(ExchangeList);
    assert KnownEntries(ExchangeList) == ["ftx", "ftx-test"];
  }

  // ---------------------------------------------------------------------------
  // The market registry and the refresh loop
  // ---------------------------------------------------------------------------

  /** The shared map from exchange id to that exchange's latest market list. */
  class MarketRegistry {
    var markets: map<string, seq<Market>>

    constructor ()
      ensures markets == map[]
    {
      markets := map[];
    }

    /** `insert` under the write lock: the entry for id is replaced wholesale. */
    method Insert(id: string, ms: seq<Market>)
      modifies this
      ensures markets == old(markets)[id := ms]
    {
      markets := markets[id := ms];
    }

    /** The reporter's read: a copy of the whole map, taken without changing it. */
    method Read() returns (copy: map<string, seq<Market>>)
      ensures copy == markets
    {
      copy := markets;
    }
  }

  /** The registry after one tick, and whether the loop goes on. */
  datatype Tick = Tick(markets: map<string, seq<Market>>, running: bool)

  /** One tick of an exchange's refresh loop, given what `get_markets`
      returned: on Ok the fetched list becomes id's entry and the loop goes
      on; on Err nothing is written and the loop stops (`break`). */
  function RefreshTick(markets: map<string, seq<Market>>, id: string, fetched: Result<seq<Market>, string>): (t: Tick)
    ensures t.running <==> fetched.Ok?
    ensures fetched.Err? ==> t.markets == markets
    ensures fetched.Ok? ==> id in t.markets && t.markets[id] == fetched.value
    ensures t.markets.Keys == markets.Keys + (if fetched.Ok? then {id} else {})
    ensures forall k :: k in markets && k != id ==> t.markets[k] == markets[k]
  {
    match fetched
    case Ok(ms) => Tick(markets[id := ms], true)
    case Err(_) => Tick(markets, false)
  }

  /** The registry after the loop has run its ticks over fetches, stopping at
      the first error. */
  function Refreshed(markets: map<string, seq<Market>>, id: string, fetches: seq<Result<seq<Market>, string>>): map<string, seq<Market>>
    decreases |fetches|
  {
    if fetches == [] then markets
    else
      var t := RefreshTick(markets, id, fetches[0]);
      if t.running then Refreshed(t.markets, id, fetches[1..]) else t.markets
  }

  /** How many ticks the loop runs over fetches: up to and including the first error. */
  function TicksRun(fetches: seq<Result<seq<Market>, string>>): (n: nat)
    ensures n <= |fetches|
  {
    if fetches == [] then 0
    else if fetches[0].Err? then 1
    else 1 + TicksRun(fetches[1..])
  }

  /** The index of the first error, or |fetches| when there is none. */
  function FirstErr(fetches: seq<Result<seq<Market>, string>>): (n: nat)
    ensures n <= |fetches|
    ensures forall k :: 0 <= k < n ==> fetches[k].Ok?
    ensures n < |fetches| ==> fetches[n].Err?
  {
    if fetches == [] then 0
    else if fetches[0].Err? then 0
    else 1 + FirstErr(fetches[1..])
  }

  /** The market list the last successful tick before the first error wrote,
      if any (a reference definition by index). */
  function LastWritten(fetches: seq<Result<seq<Market>, string>>): Option<seq<Market>>
  {
    var n := FirstErr(fetches);
    if n == 0 then None else Some(fetches[n - 1].value)
  }

  /** The last successful fetch before the first failure wins: the loop leaves
      id mapped to it, and leaves the registry unchanged when the first tick
      already fails. */
  lemma {:induction false} RefreshLastWins(markets: map<string, seq<Market>>, id: string, fetches: seq<Result<seq<Market>, string>>)
    ensures Refreshed(markets, id, fetches)
         == match LastWritten(fetches) case None => markets case Some(ms) => markets[id := ms]
    decreases |fetches|
  {
    if fetches != [] && fetches[0].Ok? {
      var rest := fetches[1..];
      var m1 := markets[id := fetches[0].value];
      RefreshLastWins(m1, id, rest);
      assert FirstErr(fetches) == 1 + FirstErr(rest);
      if FirstErr(rest) > 0 {
        assert fetches[FirstErr(fetches) - 1] == rest[FirstErr(rest) - 1];
        assert m1[id := rest[FirstErr(rest) - 1].value] == markets[id := rest[FirstErr(rest) - 1].value];
      }
    }
  }

  /** The loop writes only id's entry: every other exchange's entry is as it was. */
  lemma RefreshOthersUnchanged(markets: map<string, seq<Market>>, id: string, fetches: seq<Result<seq<Market>, string>>, other: string)
    requires other != id
    ensures other in Refreshed(markets, id, fetches) <==> other in markets
    ensures other in markets ==> Refreshed(markets, id, fetches)[other] == markets[other]
  {
    RefreshLastWins(markets, id, fetches);
  }

  /** The loop runs one tick per success and stops on the tick that fails. */
  lemma {:induction false} TicksRunStopsAtFirstErr(fetches: seq<Result<seq<Market>, string>>)
    ensures TicksRun(fetches) == if FirstErr(fetches) < |fetches| then FirstErr(fetches) + 1 else |fetches|
  {
    if fetches != [] && fetches[0].Ok? {
      TicksRunStopsAtFirstErr(fetches[1..]);
    }
  }

  /** One exchange's refresh task, over the results of successive
      `get_markets` calls, one per 90-second tick: each success is inserted
      under id; the first failure ends the loop. Returns the number of ticks
      run. */
  method RefreshMarkets(registry: MarketRegistry, id: string, fetches: seq<Result<seq<Market>, string>>) returns (ticks: nat)
    modifies registry
    ensures registry.markets == Refreshed(old(registry.markets), id, fetches)
    ensures ticks == TicksRun(fetches)
  {
    ticks := 0;
    while ticks < |fetches|
      invariant ticks <= |fetches|
      invariant Refreshed(registry.markets, id, fetches[ticks..]) == Refreshed(old(registry.markets), id, fetches)
      invariant TicksRun(fetches) == ticks + TicksRun(fetches[ticks..])
    {
      assert fetches[ticks..][1..] == fetches[ticks + 1..];
      match fetches[ticks]
      case Ok(markets) =>
        registry.Insert(id, markets);
        ticks := ticks + 1;
      case Err(_) =>
        ticks := ticks + 1;
        break;
    }
  }
}
