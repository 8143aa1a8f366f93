/** Complete snapshots from paged reads: Lighthouse's versioned pages (provider/tc_lighthouse.go), SWAS's
    counted pages (ali_swas.go) and ECS's token chain (ali_ecs.go), each against a server that may change
    or misbehave between two requests. */
module Paging {
  import opened Text
  import opened Keys
  import opened Plan

  /** Why a read fails: the call itself, the read budget, or a response that cannot be proved complete. */
  datatype ReadError = CallFailed | BudgetSpent | NotProven

  datatype Read = Complete(snapshot: RuleSnapshot) | Failed(error: ReadError)

  function Min(a: nat, b: nat): nat { if a < b then a else b }

  /** The page of `rules` at an offset. */
  function PageOf(rules: seq<RuleInfo>, offset: nat, limit: nat): seq<RuleInfo> {
    if offset >= |rules| then [] else rules[offset..Min(offset + limit, |rules|)]
  }

  // ------------------------------------------------------------------- Lighthouse

  datatype VersionedPage = VersionedPage(rules: seq<RuleInfo>, version: Option<nat>) | NoPage

  /** A firewall whose version never decreases and changes whenever its rules do. */
  class VersionedServer {
    var rules: seq<RuleInfo>
    var version: nat
    ghost var requests: nat
    /** Failed calls, answers without a version, expired deadlines. */
    ghost var faults: nat

    constructor ()
      ensures requests == 0
    {
      rules, version, requests, faults := [], 0, 0, 0;
    }

    /** Whether the read deadline has passed. */
    method Expired() returns (expired: bool)
      modifies this`faults
      ensures faults >= old(faults) && (expired ==> faults > old(faults))
    {
      expired := false;
    }

    /** Anything may have happened since the last request; the page itself is read at one instant. */
    method Describe(offset: nat, limit: nat) returns (page: VersionedPage)
      modifies this
      ensures requests == old(requests) + 1
      ensures old(version) <= version && (version == old(version) ==> rules == old(rules))
      ensures page.VersionedPage? ==> page.rules == PageOf(rules, offset, limit)
      ensures page.VersionedPage? && page.version.Some? ==> page.version.value == version
      ensures faults >= old(faults) && (page.NoPage? || page.version.None? ==> faults > old(faults))
    {
      requests := requests + 1;
      page := VersionedPage(PageOf(rules, offset, limit), Some(version));
    }
  }

  const LIGHTHOUSE_LIMIT: nat := 100

  lemma NextPage(rules: seq<RuleInfo>, offset: nat, limit: nat)
    requires offset <= |rules| && limit > 0
    ensures rules[..offset] + PageOf(rules, offset, limit) == rules[..Min(offset + limit, |rules|)]
    ensures |PageOf(rules, offset, limit)| == Min(offset + limit, |rules|) - offset
  {
  }

  /** One pass over all pages: what it collected and the first and last version it saw. */
  method ReadPass(server: VersionedServer, requests: nat, maxRequests: nat)
    returns (all: seq<RuleInfo>, first: Option<nat>, last: Option<nat>, used: nat, error: Option<ReadError>)
    requires requests <= maxRequests
    modifies server
    ensures requests <= used <= maxRequests && server.requests - old(server.requests) == used - requests
    ensures old(server.version) <= server.version
    ensures error.None? ==> first.Some? && last == Some(server.version) && first.value <= server.version
    ensures error.None? && first == last ==> all == server.rules
    ensures error.None? ==> old(server.version) <= first.value
    ensures server.faults >= old(server.faults)
    ensures server.faults == old(server.faults) && server.version == old(server.version) ==>
              (|server.rules| < (maxRequests - requests) * LIGHTHOUSE_LIMIT ==> error.None?)
    decreases maxRequests - requests
  {
    all, first, last, used, error := [], None, None, requests, None;
    var offset: nat := 0;
    while true
      invariant requests <= used <= maxRequests && server.requests - old(server.requests) == used - requests
      invariant old(server.version) <= server.version
      invariant first.None? ==> offset == 0 && all == []
      invariant first.Some? ==> old(server.version) <= first.value <= server.version
      invariant server.faults >= old(server.faults) && offset == (used - requests) * LIGHTHOUSE_LIMIT
      invariant first.None? ==> used == requests
      invariant first == Some(server.version) ==> offset <= |server.rules| && all == server.rules[..offset]
      decreases maxRequests - used
    {
      var expired := server.Expired();
      if expired {
        error := Some(BudgetSpent);
        return;
      }
      if used >= maxRequests {
        if server.version == old(server.version) {
          assert offset <= |server.rules|;
        }
        error := Some(NotProven);
        return;
      }
      used := used + 1;
      ghost var before, was := server.version, server.rules;
      var page := server.Describe(offset, LIGHTHOUSE_LIMIT);
      expired := server.Expired();
      if expired {
        error := Some(BudgetSpent);
        return;
      }
      if page.NoPage? {
        error := Some(CallFailed);
        return;
      }
      if page.version.None? {
        error := Some(NotProven);
        return;
      }
      if first.None? {
        first := page.version;
      }
      last := page.version;
      if first == Some(server.version) {
        NextPage(server.rules, offset, LIGHTHOUSE_LIMIT);
      }
      all := all + page.rules;
      if |page.rules| < LIGHTHOUSE_LIMIT {
        return;
      }
      offset := offset + LIGHTHOUSE_LIMIT;
    }
  }

  /** An atomic snapshot from pages: a successful read is exactly the rule list at the revision it reports,
      whatever changed between the pages, and both passes together keep to one request budget. Only a fault, a
      change or too long a list can make it fail. */
  method GetVersionedSnapshot(server: VersionedServer, maxRequests: nat) returns (res: Read)
    modifies server
    ensures server.requests - old(server.requests) <= maxRequests
    ensures res.Complete? ==> res.snapshot == RuleSnapshot(server.rules, Decimal(server.version))
    ensures old(server.version) <= server.version
    ensures server.faults == old(server.faults) && server.version == old(server.version) ==>
              (|server.rules| < maxRequests * LIGHTHOUSE_LIMIT ==> res.Complete?)
  {
    var requests: nat := 0;
    for attempt := 0 to 2
      invariant requests <= maxRequests && server.requests - old(server.requests) == requests
      invariant old(server.version) <= server.version && old(server.faults) <= server.faults
      invariant attempt == 0 ==> requests == 0
      invariant attempt > 0 ==> old(server.version) < server.version || old(server.faults) < server.faults
    {
      var all, first, last, error;
      all, first, last, requests, error := ReadPass(server, requests, maxRequests);
      if error.Some? {
        return Failed(error.value);
      }
      var expired := server.Expired();
      if expired {
        return Failed(BudgetSpent);
      }
      if first == last {
        return Complete(RuleSnapshot(all, Decimal(last.value)));
      }
    }
    res := Failed(NotProven);
  }

  // ------------------------------------------------------------------------- SWAS

  datatype CountedPage = CountedPage(rules: seq<RuleInfo>, total: Option<int>) | NoCountedPage

  /** A firewall read by page number; `changes` counts what others did to it. */
  class CountedServer {
    var rules: seq<RuleInfo>
    ghost var changes: nat
    ghost var faults: nat
    /** The totals stated so far. */
    ghost var stated: set<int>

    constructor ()
      ensures stated == {}
    {
      rules, changes, faults, stated := [], 0, 0, {};
    }

    method List(pageNumber: nat, pageSize: nat) returns (page: CountedPage)
      requires pageNumber > 0
      modifies this
      ensures old(changes) <= changes && (changes == old(changes) ==> rules == old(rules))
      ensures page.CountedPage? ==> page.rules == PageOf(rules, (pageNumber - 1) * pageSize, pageSize)
      ensures page.CountedPage? && page.total.Some? ==> page.total.value == |rules|
      ensures stated == old(stated) + if page.CountedPage? && page.total.Some? then {page.total.value} else {}
      ensures faults >= old(faults) && (page.NoCountedPage? ==> faults > old(faults))
    {
      page := CountedPage(PageOf(rules, (pageNumber - 1) * pageSize, pageSize), Some(|rules|));
      stated := stated + {|rules|};
    }
  }

  const SWAS_PAGE: nat := 100
  const SWAS_PAGES: nat := 100

  /** Reads page after page until the count or, where no total is ever stated, a short page proves the end.
      A success agrees with every total stated, and on a firewall nobody else changes it is the whole list; there
      a read without faults succeeds exactly when the last page can be proved to be the last. */
  method GetCountedSnapshot(server: CountedServer) returns (res: Read)
    requires server.stated == {}
    modifies server
    ensures res.Complete? ==> res.snapshot.revision == "" && forall total :: total in server.stated ==> total == |res.snapshot.rules|
    ensures res.Complete? && server.changes == old(server.changes) ==> res.snapshot.rules == server.rules
    ensures server.faults == old(server.faults) && server.changes == old(server.changes) ==>
              var most := SWAS_PAGES * SWAS_PAGE;
              (res.Complete? <==> |server.rules| < most || (|server.rules| == most && server.stated != {}))
  {
    var all: seq<RuleInfo> := [];
    var total: Option<int> := None;
    for page := 0 to SWAS_PAGES
      invariant old(server.changes) <= server.changes
      invariant server.stated == if total.Some? then {total.value} else {}
      invariant server.changes == old(server.changes) ==>
                  page * SWAS_PAGE <= |server.rules| && all == server.rules[..page * SWAS_PAGE]
      invariant server.changes == old(server.changes) && total.Some? ==> total.value == |server.rules|
      invariant total.Some? ==> |all| < total.value
      invariant server.faults >= old(server.faults)
    {
      var response := server.List(page + 1, SWAS_PAGE);
      if response.NoCountedPage? {
        return Failed(CallFailed);
      }
      if response.total.Some? {
        if response.total.value < 0 {
          return Failed(NotProven);
        }
        if total.Some? && total.value != response.total.value {
          return Failed(NotProven);
        }
        if total.None? {
          total := response.total;
        }
      }
      if server.changes == old(server.changes) {
        NextPage(server.rules, page * SWAS_PAGE, SWAS_PAGE);
      }
      all := all + response.rules;
      if total.Some? {
        if |all| > total.value {
          return Failed(NotProven);
        }
        if |all| == total.value {
          return Complete(RuleSnapshot(all, ""));
        }
        if |response.rules| == 0 {
          return Failed(NotProven);
        }
        continue;
      }
      if |response.rules| < SWAS_PAGE {
        return Complete(RuleSnapshot(all, ""));
      }
    }
    res := Failed(NotProven);
  }

  // -------------------------------------------------------------------------- ECS

  datatype TokenPage = TokenPage(rules: seq<RuleInfo>, next: string) | NoTokenPage

  /** A security group read along a chain of tokens; while nobody changes it, a token stands for a position
      in the list. The empty token means the end. */
  class TokenServer {
    var rules: seq<RuleInfo>
    ghost var changes: nat
    ghost var faults: nat
    ghost var position: map<string, nat>
    /** The tokens handed out so far. */
    ghost var handed: seq<string>

    constructor ()
      ensures handed == []
    {
      rules, changes, faults, position, handed := [], 0, 0, map[], [];
    }

    ghost function PositionOf(token: Option<string>): Option<nat>
      reads this
    {
      match token
      case None => Some(0)
      case Some(t) => if t in position then Some(position[t]) else None
    }

    method Describe(token: Option<string>) returns (page: TokenPage)
      modifies this
      ensures old(changes) <= changes && (changes == old(changes) ==> rules == old(rules))
      ensures changes == old(changes) && page.TokenPage? && old(PositionOf(token)).Some? ==>
                var from := old(PositionOf(token)).value;
                && from + |page.rules| <= |rules| && page.rules == rules[from..from + |page.rules|]
                && (page.next == "" ==> from + |page.rules| == |rules|)
                && (page.next != "" ==> PositionOf(Some(page.next)) == Some(from + |page.rules|))
      ensures faults >= old(faults) && (page.NoTokenPage? ==> faults > old(faults))
      ensures handed == old(handed) + if page.TokenPage? && page.next != "" then [page.next] else []
    {
      if token.Some? {
        faults := faults + 1;
        page := NoTokenPage;
      } else {
        page := TokenPage(rules, "");
      }
    }
  }

  lemma HandedAgain(tokens: seq<string>, t: string)
    requires t in tokens
    ensures !Distinct(tokens + [t])
  {
    var i :| 0 <= i < |tokens| && tokens[i] == t;
    assert (tokens + [t])[i] == (tokens + [t])[|tokens|];
  }

  /** Follows the tokens; `budget` is what the read deadline allows. No token is ever followed twice, on a group
      nobody else changes a success is the whole list, and the chain is given up as endless exactly when the
      cloud hands out a token again. */
  method GetTokenSnapshot(server: TokenServer, budget: nat) returns (res: Read, followed: seq<string>)
    requires server.handed == []
    modifies server
    ensures Distinct(followed) && |followed| <= budget
    ensures res == Failed(NotProven) <==> !Distinct(server.handed)
    ensures res.Failed? && server.faults == old(server.faults) && Distinct(server.handed) ==> |followed| == budget
    ensures res.Complete? ==> res.snapshot.revision == ""
    ensures res.Complete? && server.changes == old(server.changes) ==> res.snapshot.rules == server.rules
  {
    var all: seq<RuleInfo> := [];
    var token: Option<string> := None;
    var seen: set<string> := {};
    followed := [];
    var left := budget;
    while left > 0
      invariant old(server.changes) <= server.changes
      invariant Distinct(followed) && followed == server.handed && |followed| == budget - left
      invariant server.faults >= old(server.faults)
      invariant forall t :: t in seen <==> t in followed
      invariant token.Some? ==> token.value in seen
      invariant server.changes == old(server.changes) ==>
                  server.PositionOf(token) == Some(|all|) && |all| <= |server.rules| && all == server.rules[..|all|]
      decreases left
    {
      left := left - 1;
      var page := server.Describe(token);
      if page.NoTokenPage? {
        return Failed(CallFailed), followed;
      }
      ghost var from := |all|;
      all := all + page.rules;
      if page.next == "" {
        return Complete(RuleSnapshot(all, "")), followed;
      }
      if token.Some? && page.next == token.value {
        HandedAgain(followed, page.next);
        return Failed(NotProven), followed;
      }
      if page.next in seen {
        HandedAgain(followed, page.next);
        return Failed(NotProven), followed;
      }
      seen, followed := seen + {page.next}, followed + [page.next];
      token := Some(page.next);
    }
    res := Failed(BudgetSpent);
  }
}
