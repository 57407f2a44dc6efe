/**
 * `sequentialSearch(transaction, connect, addresses, rq, callback)`: tries
 * the resolved targets one after another. Each attempt opens a connection
 * and creates a client transaction on it; a 503 (received, or made up when
 * the connection fails) moves on to the next target, any other response
 * above 100 ends the search, and running out of targets reports the last
 * status seen, or 404. Whether opening a target throws is an input, `fails`.
 */
module SequentialSearch {
  import opened Wrappers
  import opened SipTypes
  import Codec
  import Resolution

  type Target = Resolution.Target

  /**
   * The search's variables: the targets not tried yet, whether `onresponse`
   * is still `searching` (rather than the callback), `lastStatusCode`, and
   * the logs of targets a transaction was created on and of responses given
   * to the callback.
   */
  datatype Search = Search(
    addresses: seq<Target>,
    searching: bool,
    last: Option<int>,
    tried: seq<Target>,
    delivered: seq<Message>)

  /** `makeResponse(rq, status)`: no reason, no extra headers, no body. */
  function Reply(rq: Message, status: int): (r: Message)
    ensures r.Response? && r.status == status
  {
    Codec.MakeResponse(rq, status, "", [], "")
  }

  /** `rs.status`: undefined for a request. */
  function StatusOf(rs: Message): Option<int> {
    if rs.Response? then Some(rs.status) else None
  }

  /** `lastStatusCode || 404`. */
  function FinalStatus(last: Option<int>): (r: int)
    ensures last.None? ==> r == 404
    ensures last.Some? && last.value != 0 ==> r == last.value
  {
    if last.Some? && last.value != 0 then last.value else 404
  }

  /**
   * `next()`: make `searching` the handler; with a target left, take it and
   * create a transaction on it, and if that throws, hand `searching` a 430
   * (a target with a local end, that is an existing flow) or a 503; with no
   * target left, give the callback the last status seen, or 404.
   */
  function Next(s: Search, rq: Message, fails: Target -> bool): (r: Search)
    ensures s.delivered <= r.delivered && s.tried <= r.tried && |r.addresses| <= |s.addresses|
    decreases |s.addresses|, 0
  {
    if s.addresses == [] then
      s.(searching := false, delivered := s.delivered + [Reply(rq, FinalStatus(s.last))])
    else
      var a := s.addresses[0];
      var s' := s.(addresses := s.addresses[1..], searching := true);
      if !fails(a) then s'.(tried := s'.tried + [a])
      else Searching(s', Reply(rq, if a.local then 430 else 503), rq, fails)
  }

  /**
   * `searching(rs)`: remember the status; a 503 moves on to the next target;
   * any other response reaches the callback, and one above 100 makes the
   * callback the handler from then on.
   */
  function Searching(s: Search, rs: Message, rq: Message, fails: Target -> bool): (r: Search)
    ensures s.delivered <= r.delivered && s.tried <= r.tried && |r.addresses| <= |s.addresses|
    decreases |s.addresses|, 1
  {
    var s' := s.(last := StatusOf(rs));
    if rs.Response? && rs.status == 503 then Next(s', rq, fails)
    else if rs.Response? && rs.status > 100 then s'.(searching := false, delivered := s'.delivered + [rs])
    else s'.(delivered := s'.delivered + [rs])
  }

  /** A response from any transaction of the search goes to the current handler. */
  function OnResponse(s: Search, rs: Message, rq: Message, fails: Target -> bool): (r: Search)
    ensures s.delivered <= r.delivered && s.tried <= r.tried && |r.addresses| <= |s.addresses|
  {
    if s.searching then Searching(s, rs, rq, fails)
    else s.(delivered := s.delivered + [rs])
  }

  /** The search as it starts: every target left, nothing seen yet. */
  function Initial(addresses: seq<Target>): Search {
    Search(addresses, true, None, [], [])
  }

  // ---------------------------------------------------------------- properties

  /**
   * What one `next()` may have done to `s` to give `r`: it created one
   * transaction, on a target it took from the front of the list, and keeps
   * searching with nothing delivered; or it delivered exactly one response
   * and ended the search. The targets it passed over are a prefix of the list.
   */
  predicate NextDid(s: Search, r: Search, fails: Target -> bool) {
    |r.addresses| <= |s.addresses| && r.addresses == s.addresses[|s.addresses| - |r.addresses|..]
    && ((r.searching && r.delivered == s.delivered && |r.tried| == |s.tried| + 1
         && r.tried[..|s.tried|] == s.tried && r.tried[|s.tried|] in s.addresses && !fails(r.tried[|s.tried|]))
        || (!r.searching && r.tried == s.tried && |r.delivered| == |s.delivered| + 1
            && r.delivered[..|s.delivered|] == s.delivered))
  }

  /** Passing over the first target keeps what the rest of the search did a possible outcome. */
  lemma {:induction false} NextDidPassingOver(s: Search, t: Search, r: Search, fails: Target -> bool)
    requires s.addresses != [] && t.addresses == s.addresses[1..] && t.tried == s.tried && t.delivered == s.delivered
    requires NextDid(t, r, fails)
    ensures NextDid(s, r, fails)
  {
    assert s.addresses[1..][|s.addresses[1..]| - |r.addresses|..] == s.addresses[|s.addresses| - |r.addresses|..];
    if r.searching {
      assert r.tried[|s.tried|] in s.addresses[1..];
    }
  }

  /** Each `next()` does exactly one of the two things `NextDid` allows. */
  lemma {:induction false} NextOutcome(s: Search, rq: Message, fails: Target -> bool)
    ensures NextDid(s, Next(s, rq, fails), fails)
    decreases |s.addresses|
  {
    if s.addresses != [] {
      var a := s.addresses[0];
      if fails(a) && !a.local {
        var t := s.(addresses := s.addresses[1..], searching := true, last := Some(503));
        NextOutcome(t, rq, fails);
        assert Next(t, rq, fails) == Next(s, rq, fails);
        NextDidPassingOver(s, t, Next(t, rq, fails), fails);
      }
    }
  }

  /** A 503 while searching moves on: the next target that opens gets a transaction, and nothing is delivered. */
  lemma Retry503(s: Search, rs: Message, rq: Message, fails: Target -> bool)
    requires s.searching && rs.Response? && rs.status == 503
    requires s.addresses != [] && !fails(s.addresses[0])
    ensures var r := OnResponse(s, rs, rq, fails);
      r.searching && r.tried == s.tried + [s.addresses[0]] && r.addresses == s.addresses[1..]
      && r.delivered == s.delivered && r.last == Some(503)
  {
    assert OnResponse(s, rs, rq, fails) == Next(s.(last := Some(503)), rq, fails);
  }

  /** A 503 while searching with no target left is delivered as a 503: the last status seen. */
  lemma Exhausted503(s: Search, rs: Message, rq: Message, fails: Target -> bool)
    requires s.searching && rs.Response? && rs.status == 503 && s.addresses == []
    ensures var r := OnResponse(s, rs, rq, fails);
      !r.searching && r.delivered == s.delivered + [Reply(rq, 503)]
  {
    assert OnResponse(s, rs, rq, fails) == Next(s.(last := Some(503)), rq, fails);
  }

  /**
   * A target with a local end that cannot be opened ends the search with a
   * 430 (the flow is gone, section 11.5 of RFC 5626); the other targets are
   * not tried.
   */
  lemma LocalFailureGives430(s: Search, rq: Message, fails: Target -> bool)
    requires s.addresses != [] && fails(s.addresses[0]) && s.addresses[0].local
    ensures var r := Next(s, rq, fails);
      !r.searching && r.delivered == s.delivered + [Reply(rq, 430)] && r.addresses == s.addresses[1..]
      && r.tried == s.tried && r.last == Some(430)
  {
  }

  /** A target without a local end that cannot be opened is passed over for the next one. */
  lemma RemoteFailureMovesOn(s: Search, rq: Message, fails: Target -> bool)
    requires s.addresses != [] && fails(s.addresses[0]) && !s.addresses[0].local
    ensures Next(s, rq, fails) == Next(s.(addresses := s.addresses[1..], searching := true, last := Some(503)), rq, fails)
  {
    var s' := s.(addresses := s.addresses[1..], searching := true);
    assert Next(s, rq, fails) == Searching(s', Reply(rq, 503), rq, fails);
  }

  /** With no target at all the callback gets a 404. */
  lemma NoTargetGives404(rq: Message, fails: Target -> bool)
    ensures Next(Initial([]), rq, fails).delivered == [Reply(rq, 404)]
    ensures !Next(Initial([]), rq, fails).searching
  {
  }

  /**
   * When no target can be opened and none has a local end, the callback gets
   * one 503 (the last status seen), never a 404, and no transaction is made.
   */
  lemma {:induction false} AllRefusedGives503(s: Search, rq: Message, fails: Target -> bool)
    requires s.addresses != []
    requires forall i :: 0 <= i < |s.addresses| ==> fails(s.addresses[i]) && !s.addresses[i].local
    ensures var r := Next(s, rq, fails);
      !r.searching && r.addresses == [] && r.tried == s.tried
      && r.delivered == s.delivered + [Reply(rq, 503)]
    decreases |s.addresses|
  {
    var t := s.(addresses := s.addresses[1..], searching := true, last := Some(503));
    assert Next(s, rq, fails) == Next(t, rq, fails);
    if |s.addresses| > 1 {
      assert forall i :: 0 <= i < |t.addresses| ==> t.addresses[i] == s.addresses[i + 1];
      AllRefusedGives503(t, rq, fails);
    }
  }

  /** A provisional 100 while searching reaches the callback and the search goes on. */
  lemma TryingKeepsSearching(s: Search, rs: Message, rq: Message, fails: Target -> bool)
    requires s.searching && rs.Response? && rs.status == 100
    ensures OnResponse(s, rs, rq, fails) == s.(last := Some(100), delivered := s.delivered + [rs])
  {
  }

  /** Any other response above 100 while searching reaches the callback and ends the search. */
  lemma AnswerEndsSearch(s: Search, rs: Message, rq: Message, fails: Target -> bool)
    requires s.searching && rs.Response? && rs.status > 100 && rs.status != 503
    ensures var r := OnResponse(s, rs, rq, fails);
      !r.searching && r.delivered == s.delivered + [rs] && r.addresses == s.addresses && r.tried == s.tried
  {
  }

  /** Once the search has ended every response, a 503 included, goes to the callback and nothing else changes. */
  lemma EndedPassesThrough(s: Search, rs: Message, rq: Message, fails: Target -> bool)
    requires !s.searching
    ensures OnResponse(s, rs, rq, fails) == s.(delivered := s.delivered + [rs])
  {
  }

  // ---------------------------------------------------------------- the closure state

  /** The variables the closures of one `sequentialSearch` call share. */
  class Searcher {
    const rq: Message
    var addresses: seq<Target>
    var searching: bool
    var last: Option<int>
    var tried: seq<Target>
    var delivered: seq<Message>

    function Current(): Search
      reads this
    {
      Search(addresses, searching, last, tried, delivered)
    }

    /** The call itself, up to its first `next()`; `rq` already has its new Via entry. */
    constructor(addresses: seq<Target>, rq: Message)
      ensures this.rq == rq && Current() == Initial(addresses)
    {
      this.rq := rq;
      this.addresses, searching, last, tried, delivered := addresses, true, None, [], [];
    }

    /** `next()`, with the failures it passes to `searching` followed round as a loop. */
    method TryNext(fails: Target -> bool)
      modifies this
      ensures Current() == Next(old(Current()), rq, fails)
    {
      while addresses != []
        invariant Next(Current(), rq, fails) == Next(old(Current()), rq, fails)
        decreases |addresses|
      {
        searching := true;
        var a := addresses[0];
        addresses := addresses[1..];
        if !fails(a) {
          tried := tried + [a];
          return;
        }
        var rs := Reply(rq, if a.local then 430 else 503);
        last := Some(rs.status);
        if rs.status != 503 {
          searching := false;
          delivered := delivered + [rs];
          return;
        }
      }
      searching := false;
      delivered := delivered + [Reply(rq, FinalStatus(last))];
    }

    /** The callback every transaction of the search reports to: `onresponse.apply(null, arguments)`. */
    method Respond(rs: Message, fails: Target -> bool)
      modifies this
      ensures Current() == OnResponse(old(Current()), rs, rq, fails)
    {
      if searching {
        last := StatusOf(rs);
        if rs.Response? && rs.status == 503 {
          TryNext(fails);
        } else {
          if rs.Response? && rs.status > 100 {
            searching := false;
          }
          delivered := delivered + [rs];
        }
      } else {
        delivered := delivered + [rs];
      }
    }
  }
}
