/** `resolveTargetRules` (syncer/target.go): one answer per host, shared by all rules of a target. */
module Resolution {
  import opened Text
  import opened Plan

  /** What resolving one host brought: addresses, or an error text and whether it is worth retrying. */
  datatype HostAnswer = Answer(ips: seq<ResolvedIP>) | NoAnswer(text: string, retryable: bool)

  /** The identity under which hosts are resolved and counted. */
  function HostKey(host: string): string { Folded(host) }

  function AnswerFor(answers: map<string, HostAnswer>, host: string): HostAnswer {
    if HostKey(host) in answers then answers[HostKey(host)] else NoAnswer("no answer", false)
  }

  function IPv4Only(ips: seq<ResolvedIP>): seq<ResolvedIP> {
    if ips == [] then []
    else IPv4Only(ips[..|ips| - 1]) + (if ips[|ips| - 1].isIPv6 then [] else [ips[|ips| - 1]])
  }

  method FilterIPv4(ips: seq<ResolvedIP>) returns (kept: seq<ResolvedIP>)
    ensures kept == IPv4Only(ips)
  {
    kept := [];
    for i := 0 to |ips|
      invariant kept == IPv4Only(ips[..i])
    {
      assert ips[..i + 1][..i] == ips[..i];
      if !ips[i].isIPv6 {
        kept := kept + [ips[i]];
      }
    }
    assert ips[..|ips|] == ips;
  }

  /** Per rule ID: the addresses, the error text, and whether the error is retryable. */
  datatype Resolved = Resolved(ips: map<int, seq<ResolvedIP>>, errors: map<int, string>, raw: map<int, bool>)

  function UsableIPs(r: DomainRule, ips: seq<ResolvedIP>): seq<ResolvedIP> {
    if r.enableIPv6 then ips else IPv4Only(ips)
  }

  function Resolve1(m: Resolved, r: DomainRule, answer: HostAnswer): Resolved {
    match answer
    case NoAnswer(text, retryable) => m.(errors := m.errors[r.id := text], raw := m.raw[r.id := retryable])
    case Answer(ips) => if UsableIPs(r, ips) == [] then m else m.(ips := m.ips[r.id := UsableIPs(r, ips)])
  }

  function ResolveAll(answers: map<string, HostAnswer>, rules: seq<DomainRule>): Resolved {
    if rules == [] then Resolved(map[], map[], map[])
    else Resolve1(ResolveAll(answers, rules[..|rules| - 1]), rules[|rules| - 1], AnswerFor(answers, rules[|rules| - 1].host))
  }

  /** What one rule gets: the answer of its host, narrowed to IPv4 unless it asks for more, or the host's error. */
  ghost predicate Gets(m: Resolved, r: DomainRule, answer: HostAnswer) {
    match answer
    case NoAnswer(text, retryable) =>
      && r.id in m.errors && m.errors[r.id] == text && r.id in m.raw && m.raw[r.id] == retryable && r.id !in m.ips
    case Answer(ips) =>
      && r.id !in m.errors && r.id !in m.raw
      && (if UsableIPs(r, ips) == [] then r.id !in m.ips else r.id in m.ips && m.ips[r.id] == UsableIPs(r, ips))
  }

  predicate Mentions(m: Resolved, id: int) { id in m.errors || id in m.raw || id in m.ips }

  lemma LastGetsItsOwn(m: Resolved, r: DomainRule, answer: HostAnswer)
    requires !Mentions(m, r.id)
    ensures Gets(Resolve1(m, r, answer), r, answer)
  {
  }

  lemma OthersKeepTheirs(m: Resolved, next: DomainRule, answer: HostAnswer, r: DomainRule, own: HostAnswer)
    requires r.id != next.id && Gets(m, r, own)
    ensures Gets(Resolve1(m, next, answer), r, own)
  {
  }

  /** Every rule gets its own host's answer and nothing of any other rule. */
  lemma {:induction false} EachRuleGetsItsAnswer(answers: map<string, HostAnswer>, rules: seq<DomainRule>)
    requires DistinctIDs(rules)
    ensures forall r :: r in rules ==> Gets(ResolveAll(answers, rules), r, AnswerFor(answers, r.host))
    ensures forall id :: Mentions(ResolveAll(answers, rules), id) ==> exists r :: r in rules && r.id == id
  {
    hide AnswerFor, UsableIPs, Gets;
    if rules != [] {
      var (init, last) := (rules[..|rules| - 1], rules[|rules| - 1]);
      EachRuleGetsItsAnswer(answers, init);
      var (before, m) := (ResolveAll(answers, init), ResolveAll(answers, rules));
      forall r | r in init ensures r in rules && r.id != last.id {
        var j :| 0 <= j < |init| && init[j] == r;
        assert rules[j] == r;
      }
      forall r | r in rules ensures Gets(m, r, AnswerFor(answers, r.host)) {
        if r != last {
          assert r in init;
          OthersKeepTheirs(before, last, AnswerFor(answers, last.host), r, AnswerFor(answers, r.host));
        } else {
          LastGetsItsOwn(before, last, AnswerFor(answers, last.host));
        }
      }
      assert !Mentions(before, last.id);
      forall id | Mentions(m, id) ensures exists r :: r in rules && r.id == id {
        if id == last.id {
          assert last in rules;
        } else {
          assert Mentions(before, id);
          var r :| r in init && r.id == id;
          assert r in rules;
        }
      }
    }
  }

  /** The cache holds the answers of exactly the hosts seen so far, each asked once. */
  ghost predicate CacheFits(cache: map<string, HostAnswer>, asked: seq<string>, answers: map<string, HostAnswer>, rules: seq<DomainRule>) {
    && Distinct(asked) && (forall h :: h in asked <==> h in cache)
    && (forall h :: h in cache <==> exists r :: r in rules && HostKey(r.host) == h)
    && (forall r :: r in rules ==> HostKey(r.host) in cache && cache[HostKey(r.host)] == AnswerFor(answers, r.host))
  }

  lemma CacheStep(cache: map<string, HostAnswer>, asked: seq<string>, answers: map<string, HostAnswer>, rules: seq<DomainRule>,
                  r: DomainRule)
    requires CacheFits(cache, asked, answers, rules)
    ensures HostKey(r.host) in cache ==>
              cache[HostKey(r.host)] == AnswerFor(answers, r.host) && CacheFits(cache, asked, answers, rules + [r])
    ensures HostKey(r.host) !in cache ==>
              CacheFits(cache[HostKey(r.host) := AnswerFor(answers, r.host)], asked + [HostKey(r.host)], answers, rules + [r])
  {
    hide HostKey;
    var key := HostKey(r.host);
    if key !in cache {
      var (c, more) := (cache[key := AnswerFor(answers, r.host)], rules + [r]);
      forall h ensures h in c <==> exists x :: x in more && HostKey(x.host) == h {
        if h == key { assert r in more; }
        if exists x :: x in rules && HostKey(x.host) == h {
          var x :| x in rules && HostKey(x.host) == h;
          assert x in more;
        }
      }
      forall x | x in more ensures HostKey(x.host) in c && c[HostKey(x.host)] == AnswerFor(answers, x.host) {
        if x in rules { assert HostKey(x.host) in cache; }
      }
    } else {
      var x :| x in rules && HostKey(x.host) == key;
      forall h ensures h in cache <==> exists x :: x in rules + [r] && HostKey(x.host) == h {
        if exists x :: x in rules && HostKey(x.host) == h {
          var y :| y in rules && HostKey(y.host) == h;
          assert y in rules + [r];
        }
      }
    }
  }

  /** Host `h` is asked for by some of the rules and has no answer. */
  ghost predicate FailsFor(answers: map<string, HostAnswer>, rules: seq<DomainRule>, h: string) {
    exists r :: r in rules && HostKey(r.host) == h && AnswerFor(answers, r.host).NoAnswer?
  }

  lemma FailsForOneMore(answers: map<string, HostAnswer>, rules: seq<DomainRule>, r: DomainRule)
    ensures forall h :: FailsFor(answers, rules + [r], h)
              <==> FailsFor(answers, rules, h) || (h == HostKey(r.host) && AnswerFor(answers, r.host).NoAnswer?)
  {
    hide HostKey, AnswerFor;
    forall h ensures FailsFor(answers, rules + [r], h)
                     <==> FailsFor(answers, rules, h) || (h == HostKey(r.host) && AnswerFor(answers, r.host).NoAnswer?)
    {
      if FailsFor(answers, rules, h) {
        var x :| x in rules && HostKey(x.host) == h && AnswerFor(answers, x.host).NoAnswer?;
        assert x in rules + [r];
      }
      assert r in rules + [r];
    }
  }

  /** Published are, once each, exactly the hosts that fail now and did not fail before. */
  ghost predicate EventsFit(events: seq<string>, failed: set<string>, before: set<string>, answers: map<string, HostAnswer>,
                            rules: seq<DomainRule>) {
    Distinct(events) && (forall h :: h in events <==> h !in before && FailsFor(answers, rules, h))
    && failed == before + set h | h in events
  }

  /** Resolves the rules of a target. `asked` are the hosts really resolved, `events` those whose failure is
      published: never one that failed in an earlier attempt. */
  method ResolveTargetRules(answers: map<string, HostAnswer>, rules: seq<DomainRule>, failedHosts: set<string>)
    returns (res: Resolved, asked: seq<string>, events: seq<string>, failed: set<string>)
    ensures res == ResolveAll(answers, rules)
    ensures Distinct(asked) && forall h :: h in asked <==> exists r :: r in rules && HostKey(r.host) == h
    ensures Distinct(events) && forall h :: h in events <==> h !in failedHosts && FailsFor(answers, rules, h)
    ensures failed == failedHosts + set h | h in events
  {
    hide HostKey, IPv4Only, CacheFits, AnswerFor, FailsFor;
    var cache: map<string, HostAnswer> := map[];
    res, asked, events, failed := Resolved(map[], map[], map[]), [], [], failedHosts;
    assert CacheFits(cache, asked, answers, rules[..0]) by { EmptyCacheFits(answers); assert rules[..0] == []; }
    assert forall h :: !FailsFor(answers, rules[..0], h) by { NobodyFails(answers); assert rules[..0] == []; }
    for i := 0 to |rules|
      invariant res == ResolveAll(answers, rules[..i])
      invariant CacheFits(cache, asked, answers, rules[..i])
      invariant EventsFit(events, failed, failedHosts, answers, rules[..i])
    {
      var rule := rules[i];
      var key := HostKey(rule.host);
      assert rules[..i + 1][..i] == rules[..i] && rules[..i + 1] == rules[..i] + [rule];
      CacheStep(cache, asked, answers, rules[..i], rule);
      FailsForOneMore(answers, rules[..i], rule);
      var answer;
      if key in cache {
        answer := cache[key];
      } else {
        answer := AnswerFor(answers, rule.host);
        cache, asked := cache[key := answer], asked + [key];
      }
      match answer
      case NoAnswer(text, retryable) =>
        res := res.(errors := res.errors[rule.id := text], raw := res.raw[rule.id := retryable]);
        if key !in failed {
          failed, events := failed + {key}, events + [key];
        }
      case Answer(all) =>
        var ips := all;
        if !rule.enableIPv6 {
          ips := FilterIPv4(ips);
        }
        if |ips| > 0 {
          res := res.(ips := res.ips[rule.id := ips]);
        }
    }
    assert rules[..|rules|] == rules;
    assert CacheFits(cache, asked, answers, rules);
    AskedHosts(cache, asked, answers, rules);
  }

  lemma NobodyFails(answers: map<string, HostAnswer>)
    ensures forall h :: !FailsFor(answers, [], h)
  {
  }

  lemma EmptyCacheFits(answers: map<string, HostAnswer>)
    ensures CacheFits(map[], [], answers, [])
  {
  }

  lemma AskedHosts(cache: map<string, HostAnswer>, asked: seq<string>, answers: map<string, HostAnswer>, rules: seq<DomainRule>)
    requires CacheFits(cache, asked, answers, rules)
    ensures Distinct(asked) && forall h :: h in asked <==> exists r :: r in rules && HostKey(r.host) == h
  {
    hide HostKey;
  }

  /** Whether every rule of the target has addresses and no error. */
  predicate InputComplete(rules: seq<DomainRule>, m: Resolved) {
    forall r :: r in rules ==> r.id !in m.errors && r.id in m.ips && m.ips[r.id] != []
  }

  method DesiredInputComplete(rules: seq<DomainRule>, m: Resolved) returns (complete: bool)
    ensures complete == InputComplete(rules, m)
  {
    for i := 0 to |rules|
      invariant forall j :: 0 <= j < i ==> InputComplete([rules[j]], m)
    {
      var r := rules[i];
      if r.id in m.errors || r.id !in m.ips || |m.ips[r.id]| == 0 {
        assert r in rules;
        return false;
      }
    }
    forall r | r in rules ensures r.id !in m.errors && r.id in m.ips && m.ips[r.id] != [] {
      var j :| 0 <= j < |rules| && rules[j] == r;
      assert InputComplete([rules[j]], m) && rules[j] in [rules[j]];
    }
    complete := true;
  }

  /** The error of the lowest rule ID stands for the whole target's DNS failure; without one the failure is
      not worth a retry. */
  ghost predicate LowestError(rules: seq<DomainRule>, raw: map<int, bool>, r: DomainRule) {
    r in rules && r.id in raw && forall q :: q in rules && q.id in raw ==> r.id <= q.id
  }

  method FailureIsRetryable(rules: seq<DomainRule>, raw: map<int, bool>) returns (retryable: bool)
    ensures forall r :: LowestError(rules, raw, r) ==> retryable == raw[r.id]
    ensures (forall r :: r in rules ==> r.id !in raw) ==> !retryable
  {
    var least: Option<int> := None;
    for i := 0 to |rules|
      invariant least.None? ==> forall j :: 0 <= j < i ==> rules[j].id !in raw
      invariant least.Some? ==> least.value in raw && exists j :: 0 <= j < i && rules[j].id == least.value
      invariant least.Some? ==> forall j :: 0 <= j < i && rules[j].id in raw ==> least.value <= rules[j].id
    {
      var id := rules[i].id;
      if id in raw && (least.None? || id < least.value) {
        least := Some(id);
      }
    }
    if least.None? {
      return false;
    }
    retryable := raw[least.value];
    ghost var j :| 0 <= j < |rules| && rules[j].id == least.value;
    assert rules[j] in rules;
    forall r | LowestError(rules, raw, r) ensures retryable == raw[r.id] {
      assert r.id <= least.value;
    }
  }
}
