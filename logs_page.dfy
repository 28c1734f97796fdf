/** The system log page (src/pages/Logs.tsx): the logs narrowed by the
    selected types and categories and by a search term over the message and
    the details, newest first; and the toggles that flip one type, one
    category or one log's details in or out of their sets. The date parser is
    a parameter; a JavaScript `Set` is an insertion-ordered list without
    repeats (OrderedSet). */
module LogsPage {
  import opened Prelude
  import opened Text
  import LogService
  import OrderedSet
  import Sorting

  type Log = LogService.StoredLog

  /** The search: the term in the message, or in the details when there are
      any, ignoring case. */
  predicate MatchesTerm(log: Log, term: string) {
    ContainsCI(log.entry.message, term)
    || (log.entry.details.Some? && ContainsCI(log.entry.details.value, term))
  }

  predicate Keeps(log: Log, types: seq<LogService.LogType>, categories: seq<LogService.LogCategory>, term: string) {
    log.entry.kind in types && log.entry.category in categories && MatchesTerm(log, term)
  }

  /** `new Date(b.timestamp).getTime() - new Date(a.timestamp).getTime()`. */
  function NewestKey(time: string -> int): Log -> int {
    (log: Log) => -time(log.timestamp)
  }

  function Kept(logs: seq<Log>, types: seq<LogService.LogType>, categories: seq<LogService.LogCategory>,
                term: string): (r: seq<Log>)
    ensures |r| <= |logs|
  {
    Filter(logs, (log: Log) => Keeps(log, types, categories, term))
  }

  function FilteredLogs(logs: seq<Log>, types: seq<LogService.LogType>, categories: seq<LogService.LogCategory>,
                        term: string, time: string -> int): seq<Log> {
    Sorting.SortWith(Kept(logs, types, categories, term), Sorting.ByKey(NewestKey(time)))
  }

  /** A log is shown if and only if its type and its category are selected
      and the term is in its message or its details; the shown logs are a
      permutation of the logs that pass, newest first. */
  lemma FilteredLogsSpec(logs: seq<Log>, types: seq<LogService.LogType>, categories: seq<LogService.LogCategory>,
                         term: string, time: string -> int)
    ensures var r := FilteredLogs(logs, types, categories, term, time);
      (forall k :: 0 <= k < |r| ==>
         r[k] in logs && r[k].entry.kind in types && r[k].entry.category in categories && MatchesTerm(r[k], term))
      && (forall k :: 0 <= k < |logs| && Keeps(logs[k], types, categories, term) ==> logs[k] in r)
      && multiset(r) == multiset(Kept(logs, types, categories, term))
      && (forall i, j :: 0 <= i <= j < |r| ==> time(r[i].timestamp) >= time(r[j].timestamp))
  {
    var kept := Kept(logs, types, categories, term);
    var r := FilteredLogs(logs, types, categories, term, time);
    assert r == Sorting.SortWith(kept, Sorting.ByKey(NewestKey(time)));
    Sorting.SortByKey(kept, NewestKey(time));
    forall i, j | 0 <= i <= j < |r| ensures time(r[i].timestamp) >= time(r[j].timestamp) {
      assert NewestKey(time)(r[i]) <= NewestKey(time)(r[j]);
    }
    forall k | 0 <= k < |r| ensures r[k] in logs && Keeps(r[k], types, categories, term) {
      assert r[k] in multiset(r);
      assert r[k] in kept;
    }
    forall k | 0 <= k < |logs| && Keeps(logs[k], types, categories, term) ensures logs[k] in r {
      assert logs[k] in kept;
      assert logs[k] in multiset(kept);
    }
  }

  /** A log without details is found by its message alone. */
  lemma NoDetailsSearchesMessage(log: Log, term: string)
    requires log.entry.details.None?
    ensures MatchesTerm(log, term) <==> ContainsCI(log.entry.message, term)
  {
  }

  const AllTypes: seq<LogService.LogType> := [LogService.Info, LogService.Success, LogService.Error]
  const AllCategories: seq<LogService.LogCategory> :=
    [LogService.Sync, LogService.ProductLog, LogService.PriceLog, LogService.Stock, LogService.SystemLog]

  /** The page's state. */
  class LogsPageState {
    var logs: seq<Log>
    var searchTerm: string
    var selectedTypes: seq<LogService.LogType>
    var selectedCategories: seq<LogService.LogCategory>
    var showDetails: seq<string>

    /** Each set holds every member once. */
    predicate Valid()
      reads this
    {
      OrderedSet.NoDup(selectedTypes) && OrderedSet.NoDup(selectedCategories) && OrderedSet.NoDup(showDetails)
    }

    /** Every type and every category selected, no details open. */
    constructor ()
      ensures Valid()
      ensures logs == [] && searchTerm == "" && showDetails == []
      ensures forall t: LogService.LogType :: t in selectedTypes
      ensures forall c: LogService.LogCategory :: c in selectedCategories
    {
      logs := [];
      searchTerm := "";
      selectedTypes := AllTypes;
      selectedCategories := AllCategories;
      showDetails := [];
      forall t: LogService.LogType ensures t in AllTypes {
        match t
        case Info => assert AllTypes[0] == t;
        case Success => assert AllTypes[1] == t;
        case Error => assert AllTypes[2] == t;
      }
      forall c: LogService.LogCategory ensures c in AllCategories {
        match c
        case Sync => assert AllCategories[0] == c;
        case ProductLog => assert AllCategories[1] == c;
        case PriceLog => assert AllCategories[2] == c;
        case Stock => assert AllCategories[3] == c;
        case SystemLog => assert AllCategories[4] == c;
      }
    }

    function Shown(time: string -> int): seq<Log>
      reads this
    {
      FilteredLogs(logs, selectedTypes, selectedCategories, searchTerm, time)
    }

    method ToggleType(t: LogService.LogType)
      requires Valid()
      modifies this
      ensures Valid()
      ensures selectedTypes == OrderedSet.Toggle(old(selectedTypes), t)
      ensures logs == old(logs) && searchTerm == old(searchTerm)
      ensures selectedCategories == old(selectedCategories) && showDetails == old(showDetails)
    {
      selectedTypes := OrderedSet.Toggle(selectedTypes, t);
    }

    method ToggleCategory(c: LogService.LogCategory)
      requires Valid()
      modifies this
      ensures Valid()
      ensures selectedCategories == OrderedSet.Toggle(old(selectedCategories), c)
      ensures logs == old(logs) && searchTerm == old(searchTerm)
      ensures selectedTypes == old(selectedTypes) && showDetails == old(showDetails)
    {
      selectedCategories := OrderedSet.Toggle(selectedCategories, c);
    }

    method ToggleDetails(logId: string)
      requires Valid()
      modifies this
      ensures Valid()
      ensures showDetails == OrderedSet.Toggle(old(showDetails), logId)
      ensures logs == old(logs) && searchTerm == old(searchTerm)
      ensures selectedTypes == old(selectedTypes) && selectedCategories == old(selectedCategories)
    {
      showDetails := OrderedSet.Toggle(showDetails, logId);
    }
  }

  /** Turning a type off hides exactly the logs of that type; turning it
      back on shows the same logs as before. */
  lemma ToggleTypeTwice(logs: seq<Log>, types: seq<LogService.LogType>, categories: seq<LogService.LogCategory>,
                        term: string, time: string -> int, t: LogService.LogType)
    requires OrderedSet.NoDup(types)
    ensures var off := OrderedSet.Toggle(types, t);
      (t in types ==> forall k :: 0 <= k < |logs| ==>
         (Keeps(logs[k], off, categories, term) <==> Keeps(logs[k], types, categories, term) && logs[k].entry.kind != t))
    ensures FilteredLogs(logs, OrderedSet.Toggle(OrderedSet.Toggle(types, t), t), categories, term, time)
            == FilteredLogs(logs, types, categories, term, time)
  {
    var back := OrderedSet.Toggle(OrderedSet.Toggle(types, t), t);
    OrderedSet.ToggleTwice(types, t);
    FilterSame(logs, (log: Log) => Keeps(log, back, categories, term), (log: Log) => Keeps(log, types, categories, term));
  }

  /** Two tests that agree on every element keep the same elements. */
  lemma {:induction false} FilterSame<T>(s: seq<T>, p: T -> bool, q: T -> bool)
    requires forall k :: 0 <= k < |s| ==> p(s[k]) == q(s[k])
    ensures Filter(s, p) == Filter(s, q)
    decreases |s|
  {
    if |s| > 0 {
      FilterSame(s[1..], p, q);
    }
  }
}
