/** The JSONP strategy of the API object: a global callback registered under a
    request name, a script element attached to the page body, and the promise
    that the three exit paths (callback, script error, timeout) settle. */
module Jsonp {
  import opened Games
  import Api

  /** A script element; the page tells them apart by their source URL. */
  datatype Script = Script(src: string)

  /** The script a JSONP request attaches: the endpoint with the callback name as a query parameter. */
  function ScriptFor(name: string): (s: Script)
    ensures |s.src| == |ApiUrl + "?callback="| + |name|
    ensures s.src[..|ApiUrl + "?callback="|] == ApiUrl + "?callback="
    ensures s.src[|ApiUrl + "?callback="|..] == name
  {
    Script(ApiUrl + "?callback=" + name)
  }

  /** Distinct request names give distinct scripts, so removing one request's
      script never removes another's. */
  lemma ScriptForInjective(a: string, b: string)
    ensures ScriptFor(a) == ScriptFor(b) ==> a == b
  {
  }

  datatype Failure = RequestFailed | TimedOut

  /** The message of the error a JSONP request rejects with. */
  function Message(f: Failure): (m: string)
    ensures f.RequestFailed? ==> m == "JSONP request failed"
    ensures f.TimedOut? ==> m == "JSONP request timed out"
  {
    match f
    case RequestFailed => "JSONP request failed"
    case TimedOut => "JSONP request timed out"
  }

  /** The state of one request's promise. */
  datatype Settlement = Pending | Resolved(data: Option<seq<Game>>) | Rejected(failure: Failure)

  /** What the page can do to a request: the response script calls the global
      callback, the script fails to load, or the 10-second timer expires. */
  datatype Event = CallbackFired(data: Option<seq<Game>>) | ScriptError | TimerExpired

  /** One event addressed to the request with the given callback name. */
  datatype Delivery = Delivery(name: string, event: Event)

  /** The global callback registry (`window`), the scripts attached to
      `document.body`, and the promise of every request started so far. */
  datatype PageState = PageState(
    window: map<string, Script>,
    body: set<Script>,
    promises: map<string, Settlement>)

  /** Resolving or rejecting a promise that has already settled changes nothing. */
  function Settle(p: Settlement, s: Settlement): (r: Settlement)
    ensures p.Pending? ==> r == s
    ensures !p.Pending? ==> r == p
  {
    if p.Pending? then s else p
  }

  /** The request name has not been used: no callback, script or promise carries it. */
  predicate Fresh(st: PageState, name: string) {
    name !in st.window && name !in st.promises && ScriptFor(name) !in st.body
  }

  /** Request `n` is registered and attached exactly while its promise is pending,
      and its registry entry is the callback that closes over its own script. */
  predicate Tracks(st: PageState, n: string)
    requires n in st.promises
  {
    && (st.promises[n].Pending? <==> n in st.window)
    && (st.promises[n].Pending? <==> ScriptFor(n) in st.body)
    && (n in st.window ==> st.window[n] == ScriptFor(n))
  }

  /** Every registered callback belongs to a request, and every request is tracked. */
  predicate Inv(st: PageState) {
    && st.window.Keys <= st.promises.Keys
    && forall n :: n in st.promises ==> Tracks(st, n)
  }

  /** Starting a request: register the callback, attach the script, and leave the promise pending. */
  function Begin(st: PageState, name: string): PageState {
    PageState(
      st.window[name := ScriptFor(name)],
      st.body + {ScriptFor(name)},
      st.promises[name := Pending])
  }

  /** The effect of one event on the page. The callback removes the script it
      closes over; a callback that is no longer registered cannot be called;
      removing a script that is no longer attached throws before the promise
      is settled; the timer acts only while the callback is still registered. */
  function Deliver(st: PageState, name: string, e: Event): (r: PageState)
    requires name in st.promises
    ensures r.promises.Keys == st.promises.Keys
  {
    match e
    case CallbackFired(data) =>
      if name !in st.window then st
      else
        var script := st.window[name];
        if script !in st.body then st.(window := st.window - {name})
        else PageState(st.window - {name}, st.body - {script},
                       st.promises[name := Settle(st.promises[name], Resolved(data))])
    case ScriptError =>
      var script := ScriptFor(name);
      if script !in st.body then st.(window := st.window - {name})
      else PageState(st.window - {name}, st.body - {script},
                     st.promises[name := Settle(st.promises[name], Rejected(RequestFailed))])
    case TimerExpired =>
      if name !in st.window then st
      else
        var script := ScriptFor(name);
        if script !in st.body then st.(window := st.window - {name})
        else PageState(st.window - {name}, st.body - {script},
                       st.promises[name := Settle(st.promises[name], Rejected(TimedOut))])
  }

  /** The settlement an exit path gives a pending request. */
  function ExitSettlement(e: Event): (s: Settlement)
    ensures !s.Pending?
    ensures e.CallbackFired? <==> s.Resolved?
    ensures e.CallbackFired? ==> s.data == e.data
    ensures e.ScriptError? ==> s == Rejected(RequestFailed)
    ensures e.TimerExpired? ==> s == Rejected(TimedOut)
  {
    match e
    case CallbackFired(data) => Resolved(data)
    case ScriptError => Rejected(RequestFailed)
    case TimerExpired => Rejected(TimedOut)
  }

  /** A sequence of events, each addressed to a request that has been started. */
  function Run(st: PageState, ds: seq<Delivery>): (r: PageState)
    requires forall k :: 0 <= k < |ds| ==> ds[k].name in st.promises
    ensures r.promises.Keys == st.promises.Keys
    decreases |ds|
  {
    if ds == [] then st
    else Run(Deliver(st, ds[0].name, ds[0].event), ds[1..])
  }

  /** A settled request as an outcome of the fetch chain: resolution returns the
      data, rejection throws the request's error. */
  function AsAttempt(s: Settlement): (a: Api.Attempt)
    requires !s.Pending?
    ensures a.Returned? <==> s.Resolved?
    ensures s.Resolved? ==> a.result == s.data
    ensures s.Rejected? ==> a.message == Message(s.failure)
  {
    match s
    case Resolved(data) => Api.Returned(data)
    case Rejected(f) => Api.Threw(Message(f))
  }

  /** Starting a fresh request registers one callback, attaches one script and
      creates one pending promise, and keeps the invariant. */
  lemma BeginRegisters(st: PageState, name: string)
    requires Inv(st) && Fresh(st, name)
    ensures Inv(Begin(st, name))
    ensures Begin(st, name).window == st.window[name := ScriptFor(name)]
    ensures Begin(st, name).body == st.body + {ScriptFor(name)}
    ensures Begin(st, name).promises == st.promises[name := Pending]
  {
  }

  /** Each exit path of a pending request removes its callback and its script,
      settles its promise with the outcome of that path, and touches nothing else. */
  lemma ExitCleansUp(st: PageState, name: string, e: Event)
    requires Inv(st) && name in st.promises && st.promises[name].Pending?
    ensures Deliver(st, name, e).window == st.window - {name}
    ensures Deliver(st, name, e).body == st.body - {ScriptFor(name)}
    ensures Deliver(st, name, e).promises == st.promises[name := ExitSettlement(e)]
  {
  }

  /** Once a request has settled, no event addressed to it changes the page:
      in particular a late timer neither removes anything nor rejects a second time. */
  lemma SettledIsFinal(st: PageState, name: string, e: Event)
    requires Inv(st) && name in st.promises && !st.promises[name].Pending?
    ensures Deliver(st, name, e) == st
  {
  }

  /** Every event keeps the invariant. */
  lemma DeliverPreservesInv(st: PageState, name: string, e: Event)
    requires Inv(st) && name in st.promises
    ensures Inv(Deliver(st, name, e))
  {
  }

  /** An event addressed to any request leaves a settled request as it is. */
  lemma DeliverKeepsSettled(st: PageState, other: string, e: Event, name: string)
    requires Inv(st) && other in st.promises && name in st.promises && !st.promises[name].Pending?
    ensures Deliver(st, other, e).promises[name] == st.promises[name]
  {
  }

  /** Whatever events follow, a settled request keeps its settlement and leaves
      neither a registered callback nor an attached script behind. */
  lemma {:induction false} SettlesOnce(st: PageState, ds: seq<Delivery>, name: string)
    requires Inv(st)
    requires forall k :: 0 <= k < |ds| ==> ds[k].name in st.promises
    requires name in st.promises && !st.promises[name].Pending?
    ensures Inv(Run(st, ds))
    ensures Run(st, ds).promises[name] == st.promises[name]
    ensures name !in Run(st, ds).window && ScriptFor(name) !in Run(st, ds).body
    decreases |ds|
  {
    if ds == [] {
      assert Tracks(st, name);
    } else {
      var st' := Deliver(st, ds[0].name, ds[0].event);
      DeliverPreservesInv(st, ds[0].name, ds[0].event);
      DeliverKeepsSettled(st, ds[0].name, ds[0].event, name);
      SettlesOnce(st', ds[1..], name);
    }
  }

  /** The page seen as an object: `window`, `document.body` and the promises are
      fields that the handlers update in place. */
  class JsonpPage {
    var window: map<string, Script>
    var body: set<Script>
    var promises: map<string, Settlement>

    function State(): PageState
      reads this
    {
      PageState(window, body, promises)
    }

    /** A page with the given scripts attached and no JSONP request started. */
    constructor(attached: set<Script>)
      ensures State() == PageState(map[], attached, map[])
      ensures Inv(State())
    {
      window := map[];
      body := attached;
      promises := map[];
    }

    /** `fetchWithJsonp` up to the point where it waits: the callback is
        registered under `name` and the script is appended to the body. */
    method FetchWithJsonp(name: string)
      requires Inv(State()) && Fresh(State(), name)
      modifies this
      ensures State() == Begin(old(State()), name)
      ensures Inv(State())
      ensures window == old(window)[name := ScriptFor(name)]
      ensures body == old(body) + {ScriptFor(name)}
      ensures promises == old(promises)[name := Pending]
    {
      BeginRegisters(State(), name);
      promises := promises[name := Pending];
      window := window[name := ScriptFor(name)];
      var script := ScriptFor(name);
      body := body + {script};
    }

    /** The response script calls `window[name](data)`. */
    method OnCallback(name: string, data: Option<seq<Game>>)
      requires Inv(State()) && name in promises
      modifies this
      ensures State() == Deliver(old(State()), name, CallbackFired(data))
      ensures Inv(State())
    {
      DeliverPreservesInv(State(), name, CallbackFired(data));
      if name in window {
        var script := window[name];
        window := window - {name};
        if script in body {
          body := body - {script};
          promises := promises[name := Settle(promises[name], Resolved(data))];
        }
      }
    }

    /** The script's `onerror` handler. */
    method OnScriptError(name: string)
      requires Inv(State()) && name in promises
      modifies this
      ensures State() == Deliver(old(State()), name, ScriptError)
      ensures Inv(State())
    {
      DeliverPreservesInv(State(), name, ScriptError);
      var script := ScriptFor(name);
      window := window - {name};
      if script in body {
        body := body - {script};
        promises := promises[name := Settle(promises[name], Rejected(RequestFailed))];
      }
    }

    /** The 10-second timer, guarded by "the callback is still registered". */
    method OnTimeout(name: string)
      requires Inv(State()) && name in promises
      modifies this
      ensures State() == Deliver(old(State()), name, TimerExpired)
      ensures Inv(State())
    {
      DeliverPreservesInv(State(), name, TimerExpired);
      if name in window {
        var script := ScriptFor(name);
        window := window - {name};
        if script in body {
          body := body - {script};
          promises := promises[name := Settle(promises[name], Rejected(TimedOut))];
        }
      }
    }
  }
}
