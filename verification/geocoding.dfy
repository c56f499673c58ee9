/**
 * The `get_location` tool: up to three calls of the rate-limited geocode
 * wrapper per address, accepting only results inside India.
 *
 * The geocoder is an oracle: `geocode(n)` is what the n-th call of the
 * wrapper within one run of the tool produced (the wrapper's own retries of
 * service errors happen inside one call). The tool's state between addresses
 * is the result map, the index of the next call and the last exception
 * message seen. Python's `str` on a float is the parameter `str`.
 */
module Geocoding {
  import opened Wrappers
  import opened Geo

  /** What one call of the geocoder produced. */
  datatype Outcome =
    | Raise(msg: string)            // the call raised; `msg` is the exception's text
    | NoResult                      // the geocode wrapper returned None
    | Loc(lat: real, lon: real)     // the geocode wrapper returned a location

  datatype Coord = Coord(lat: real, lon: real)

  /** What the attempts for one address leave behind. */
  datatype AddressRun = AddressRun(
    coords: Option<Coord>,          // accepted coordinates, if any
    next: nat,                      // index of the next geocoder call
    lastError: Option<string>)      // the tool-wide last error text, if any exception occurred so far

  /** The state of the tool after a prefix of the addresses. */
  datatype Progress = Progress(
    results: map<string, seq<string>>,
    next: nat,
    lastError: Option<string>)

  const MaxAttempts: nat := 3
  const NotFound: string := "Not found"
  const DefaultReason: string := "Error"

  /** Whether call `k` returned a location inside the box. */
  predicate InBoxAt(geocode: nat -> Outcome, k: nat)
  {
    geocode(k).Loc? && IsInIndia(geocode(k).lat, geocode(k).lon)
  }

  /** Whether one of the calls `start` up to (not including) `end` returned a location inside the box. */
  predicate FoundInBox(geocode: nat -> Outcome, start: nat, end: nat)
  {
    exists k :: start <= k < end && InBoxAt(geocode, k)
  }

  /** Whether every call `start` up to (not including) `end` raised. */
  predicate AllRaised(geocode: nat -> Outcome, start: nat, end: nat)
  {
    forall k :: start <= k < end ==> geocode(k).Raise?
  }

  /**
   * At most `budget` attempts for one address, starting with call `n`:
   * an exception leads to another attempt, the first call that returns
   * (a location or nothing) ends the attempts.
   */
  function Attempts(geocode: nat -> Outcome, n: nat, budget: nat, lastError: Option<string>): (run: AddressRun)
    ensures n <= run.next <= n + budget
    ensures budget > 0 ==> n < run.next
    decreases budget
  {
    if budget == 0 then AddressRun(None, n, lastError)
    else
      match geocode(n)
      case Raise(msg) => Attempts(geocode, n + 1, budget - 1, Some(msg))
      case NoResult => AddressRun(None, n + 1, lastError)
      case Loc(lat, lon) =>
        AddressRun(if IsInIndia(lat, lon) then Some(Coord(lat, lon)) else None, n + 1, lastError)
  }

  /** The result-map entry for one address: its coordinates as text, or "Not found" and a reason. */
  function Entry(run: AddressRun, str: real -> string): (entry: seq<string>)
    ensures |entry| == 2
  {
    match run.coords
    case Some(c) => [str(c.lat), str(c.lon)]
    case None => [NotFound, run.lastError.GetOr(DefaultReason)]
  }

  /** The tool's state after processing `addresses` in order. */
  function Process(addresses: seq<string>, geocode: nat -> Outcome, str: real -> string): (p: Progress)
    ensures |addresses| <= p.next <= MaxAttempts * |addresses|
    decreases |addresses|
  {
    if addresses == [] then Progress(map[], 0, None)
    else
      var before := Process(addresses[..|addresses| - 1], geocode, str);
      var run := Attempts(geocode, before.next, MaxAttempts, before.lastError);
      Progress(before.results[addresses[|addresses| - 1] := Entry(run, str)], run.next, run.lastError)
  }

  /** The attempts made for `addresses[i]`. */
  function RunAt(addresses: seq<string>, geocode: nat -> Outcome, str: real -> string, i: nat): (run: AddressRun)
    requires i < |addresses|
    ensures Process(addresses[..i], geocode, str).next < run.next <= Process(addresses[..i], geocode, str).next + MaxAttempts
  {
    var before := Process(addresses[..i], geocode, str);
    Attempts(geocode, before.next, MaxAttempts, before.lastError)
  }

  /** The message of the most recent exception among the first `n` calls, if any. */
  function LastRaise(geocode: nat -> Outcome, n: nat): (message: Option<string>)
    decreases n
  {
    if n == 0 then None
    else
      match geocode(n - 1)
      case Raise(msg) => Some(msg)
      case _ => LastRaise(geocode, n - 1)
  }

  /** `get_location`: the map from each address to its coordinates or to "Not found" and a reason. */
  method GetLocation(addresses: seq<string>, geocode: nat -> Outcome, str: real -> string)
    returns (results: map<string, seq<string>>)
    ensures results == Process(addresses, geocode, str).results
  {
    results := map[];
    var calls: nat := 0;
    var lastError: Option<string> := None;
    for i := 0 to |addresses|
      invariant Process(addresses[..i], geocode, str) == Progress(results, calls, lastError)
    {
      var address := addresses[i];
      var coords: Option<Coord> := None;
      ghost var run := Attempts(geocode, calls, MaxAttempts, lastError);
      for attempt := 0 to MaxAttempts
        invariant coords == None
        invariant Attempts(geocode, calls, MaxAttempts - attempt, lastError) == run
      {
        var location := geocode(calls);
        calls := calls + 1;
        match location {
          case Raise(msg) =>
            lastError := Some(msg);
          case NoResult =>
            break;
          case Loc(lat, lon) =>
            if IsInIndia(lat, lon) {
              coords := Some(Coord(lat, lon));
            }
            break;
        }
      }
      assert AddressRun(coords, calls, lastError) == run;
      if coords.Some? {
        results := results[address := [str(coords.value.lat), str(coords.value.lon)]];
      } else {
        results := results[address := [NotFound, if lastError.Some? then lastError.value else DefaultReason]];
      }
      assert addresses[..i + 1][..i] == addresses[..i];
    }
    assert addresses[..|addresses|] == addresses;
  }

  /** The keys of the result map are exactly the input addresses. */
  lemma {:induction false} ProcessKeys(addresses: seq<string>, geocode: nat -> Outcome, str: real -> string)
    ensures Process(addresses, geocode, str).results.Keys == set a | a in addresses
    decreases |addresses|
  {
    if addresses != [] {
      var init := addresses[..|addresses| - 1];
      ProcessKeys(init, geocode, str);
      assert addresses == init + [addresses[|addresses| - 1]];
    }
  }

  /**
   * Within one address's attempts every call but the last raised, and when
   * fewer than all attempts were used the last one did not raise. The address
   * gets coordinates exactly when one of its calls returned a location
   * inside the box, and then they are that location.
   */
  lemma {:induction false} AttemptsShape(geocode: nat -> Outcome, n: nat, budget: nat, lastError: Option<string>)
    requires budget > 0
    ensures var run := Attempts(geocode, n, budget, lastError);
      && AllRaised(geocode, n, run.next - 1)
      && (run.next < n + budget ==> !geocode(run.next - 1).Raise?)
      && (run.coords.Some? <==> FoundInBox(geocode, n, run.next))
      && (run.coords.Some? ==>
            InBoxAt(geocode, run.next - 1) &&
            run.coords.value == Coord(geocode(run.next - 1).lat, geocode(run.next - 1).lon))
    decreases budget
  {
    var run := Attempts(geocode, n, budget, lastError);
    match geocode(n)
    case Raise(msg) =>
      assert !InBoxAt(geocode, n);
      if budget > 1 {
        AttemptsShape(geocode, n + 1, budget - 1, Some(msg));
      }
    case NoResult =>
    case Loc(lat, lon) =>
      if IsInIndia(lat, lon) {
        assert InBoxAt(geocode, n);
      }
  }

  /**
   * The error carried out of an address's attempts is the message of the most
   * recent exception among all calls so far, whichever address made it.
   */
  lemma {:induction false} AttemptsLastError(geocode: nat -> Outcome, n: nat, budget: nat, lastError: Option<string>)
    requires lastError == LastRaise(geocode, n)
    ensures Attempts(geocode, n, budget, lastError).lastError == LastRaise(geocode, Attempts(geocode, n, budget, lastError).next)
    decreases budget
  {
    if budget > 0 {
      match geocode(n)
      case Raise(msg) =>
        AttemptsLastError(geocode, n + 1, budget - 1, Some(msg));
      case NoResult =>
      case Loc(lat, lon) =>
    }
  }

  /** The tool's last error is always the message of the most recent exception in the run. */
  lemma {:induction false} ProcessLastError(addresses: seq<string>, geocode: nat -> Outcome, str: real -> string)
    ensures Process(addresses, geocode, str).lastError == LastRaise(geocode, Process(addresses, geocode, str).next)
    decreases |addresses|
  {
    if addresses != [] {
      var before := Process(addresses[..|addresses| - 1], geocode, str);
      ProcessLastError(addresses[..|addresses| - 1], geocode, str);
      AttemptsLastError(geocode, before.next, MaxAttempts, before.lastError);
    }
  }

  /**
   * A repeated address is processed again each time: its entry is the one
   * computed for its last occurrence.
   */
  lemma {:induction false} LastOccurrenceWins(addresses: seq<string>, geocode: nat -> Outcome, str: real -> string, i: nat)
    requires i < |addresses|
    requires forall j :: i < j < |addresses| ==> addresses[j] != addresses[i]
    ensures addresses[i] in Process(addresses, geocode, str).results
    ensures Process(addresses, geocode, str).results[addresses[i]] == Entry(RunAt(addresses, geocode, str, i), str)
    decreases |addresses|
  {
    var init := addresses[..|addresses| - 1];
    if i < |addresses| - 1 {
      LastOccurrenceWins(init, geocode, str, i);
      assert init[..i] == addresses[..i];
    }
  }

  /**
   * The entry made for one address, given that the error carried in is the
   * most recent exception so far: coordinates of the in-box location exactly
   * when one of its calls returned one; otherwise "Not found" with the
   * most recent exception message, or "Error" if none has occurred.
   */
  lemma AttemptsEntry(geocode: nat -> Outcome, n: nat, lastError: Option<string>, str: real -> string)
    requires lastError == LastRaise(geocode, n)
    ensures var run := Attempts(geocode, n, MaxAttempts, lastError);
      if FoundInBox(geocode, n, run.next) then
        InBoxAt(geocode, run.next - 1) &&
        Entry(run, str) == [str(geocode(run.next - 1).lat), str(geocode(run.next - 1).lon)]
      else
        Entry(run, str) == [NotFound, LastRaise(geocode, run.next).GetOr(DefaultReason)]
  {
    AttemptsShape(geocode, n, MaxAttempts, lastError);
    AttemptsLastError(geocode, n, MaxAttempts, lastError);
  }

  /** The facts of `AttemptsShape` and `AttemptsEntry` for the attempts of `addresses[i]`. */
  lemma RunAtFacts(addresses: seq<string>, geocode: nat -> Outcome, str: real -> string, i: nat)
    requires i < |addresses|
    ensures var start := Process(addresses[..i], geocode, str).next;
      var run := RunAt(addresses, geocode, str, i);
      && AllRaised(geocode, start, run.next - 1)
      && (run.next < start + MaxAttempts ==> !geocode(run.next - 1).Raise?)
      && if FoundInBox(geocode, start, run.next) then
           InBoxAt(geocode, run.next - 1) &&
           Entry(run, str) == [str(geocode(run.next - 1).lat), str(geocode(run.next - 1).lon)]
         else
           Entry(run, str) == [NotFound, LastRaise(geocode, run.next).GetOr(DefaultReason)]
  {
    var before := Process(addresses[..i], geocode, str);
    ProcessLastError(addresses[..i], geocode, str);
    AttemptsShape(geocode, before.next, MaxAttempts, before.lastError);
    AttemptsEntry(geocode, before.next, before.lastError, str);
  }

  /**
   * What the result map says about an address, read off the calls made for
   * its last occurrence (calls `start` up to `end`): one to three calls,
   * all but the last of which raised; coordinates exactly when one of them
   * returned a location inside the box; otherwise "Not found" with the message
   * of the most recent exception of the whole run, or "Error" if none has
   * occurred.
   */
  lemma ResultForAddress(addresses: seq<string>, geocode: nat -> Outcome, str: real -> string, i: nat)
    requires i < |addresses|
    requires forall j :: i < j < |addresses| ==> addresses[j] != addresses[i]
    ensures var start := Process(addresses[..i], geocode, str).next;
      var end := RunAt(addresses, geocode, str, i).next;
      var results := Process(addresses, geocode, str).results;
      && addresses[i] in results
      && start < end <= start + MaxAttempts
      && AllRaised(geocode, start, end - 1)
      && (end < start + MaxAttempts ==> !geocode(end - 1).Raise?)
      && if FoundInBox(geocode, start, end) then
           InBoxAt(geocode, end - 1) &&
           results[addresses[i]] == [str(geocode(end - 1).lat), str(geocode(end - 1).lon)]
         else
           results[addresses[i]] == [NotFound, LastRaise(geocode, end).GetOr(DefaultReason)]
  {
    LastOccurrenceWins(addresses, geocode, str, i);
    RunAtFacts(addresses, geocode, str, i);
  }

  /** Three raising calls use up the attempts and leave the third message as the error. */
  lemma AttemptsAllRaise(geocode: nat -> Outcome, n: nat, lastError: Option<string>)
    requires AllRaised(geocode, n, n + MaxAttempts)
    ensures Attempts(geocode, n, MaxAttempts, lastError) == AddressRun(None, n + MaxAttempts, Some(geocode(n + MaxAttempts - 1).msg))
  {
    assert geocode(n).Raise? && geocode(n + 1).Raise? && geocode(n + 2).Raise?;
  }

  /** `AttemptsAllRaise` for the attempts of `addresses[i]`. */
  lemma RunAtAllRaise(addresses: seq<string>, geocode: nat -> Outcome, str: real -> string, i: nat)
    requires i < |addresses|
    requires AllRaised(geocode, Process(addresses[..i], geocode, str).next, Process(addresses[..i], geocode, str).next + MaxAttempts)
    ensures RunAt(addresses, geocode, str, i)
      == AddressRun(None, Process(addresses[..i], geocode, str).next + MaxAttempts,
                    Some(geocode(Process(addresses[..i], geocode, str).next + MaxAttempts - 1).msg))
  {
    var before := Process(addresses[..i], geocode, str);
    AttemptsAllRaise(geocode, before.next, before.lastError);
  }

  /**
   * When every call made for an address raises, the address uses exactly
   * three calls and is "Not found" with the third exception's message.
   */
  lemma AllAttemptsRaise(addresses: seq<string>, geocode: nat -> Outcome, str: real -> string, i: nat)
    requires i < |addresses|
    requires forall j :: i < j < |addresses| ==> addresses[j] != addresses[i]
    requires AllRaised(geocode, Process(addresses[..i], geocode, str).next, Process(addresses[..i], geocode, str).next + MaxAttempts)
    ensures RunAt(addresses, geocode, str, i).next == Process(addresses[..i], geocode, str).next + MaxAttempts
    ensures addresses[i] in Process(addresses, geocode, str).results
    ensures Process(addresses, geocode, str).results[addresses[i]]
      == [NotFound, geocode(RunAt(addresses, geocode, str, i).next - 1).msg]
  {
    RunAtAllRaise(addresses, geocode, str, i);
    LastOccurrenceWins(addresses, geocode, str, i);
  }

  /**
   * A first call that returns no location, or a location outside the box,
   * is not retried: the address uses that one call and is "Not found"
   * with the most recent exception message of the run so far (possibly an
   * earlier address's), or "Error" if none has occurred.
   */
  lemma NonMatchNotRetried(addresses: seq<string>, geocode: nat -> Outcome, str: real -> string, i: nat)
    requires i < |addresses|
    requires forall j :: i < j < |addresses| ==> addresses[j] != addresses[i]
    requires var start := Process(addresses[..i], geocode, str).next;
      !geocode(start).Raise? && !InBoxAt(geocode, start)
    ensures var start := Process(addresses[..i], geocode, str).next;
      && RunAt(addresses, geocode, str, i).next == start + 1
      && addresses[i] in Process(addresses, geocode, str).results
      && Process(addresses, geocode, str).results[addresses[i]] == [NotFound, LastRaise(geocode, start).GetOr(DefaultReason)]
  {
    LastOccurrenceWins(addresses, geocode, str, i);
    ProcessLastError(addresses[..i], geocode, str);
  }

  /**
   * The last error is not reset between addresses: "Bhopal" raised once and
   * then got no result; "Atlantis" never raised, yet is reported with
   * Bhopal's error.
   */
  lemma StaleErrorCarriesOver(str: real -> string)
    ensures var geocode := (n: nat) => if n == 0 then Raise("service busy") else NoResult;
      Process(["Bhopal", "Atlantis"], geocode, str).results
        == map["Bhopal" := [NotFound, "service busy"], "Atlantis" := [NotFound, "service busy"]]
  {
  }
}
