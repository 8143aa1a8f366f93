/** Domain validation of rules and target references (config/validate.go). */
module Validate {
  import opened Text
  import opened Plan

  /** `NormalizeRule`: the normalised rule, or None when it is rejected. */
  function NormalizeRule(r: DomainRule): Option<DomainRule> {
    var host := Trim(r.host);
    var protocol := Upper(Trim(r.protocol));
    var action := Upper(Trim(r.action));
    var ports := Trim(r.ports);
    if host == "" then None
    else if protocol !in {"TCP", "UDP", "TCP+UDP", "ICMP"} then None
    else if action !in {"ACCEPT", "DROP"} then None
    else if protocol != "ICMP" && ports == "" then None
    else Some(r.(host := host, protocol := protocol, action := action,
                 ports := if protocol == "ICMP" then "ALL" else ports))
  }

  /** What a stored rule satisfies: the fields the planner reads are in normal form. */
  predicate Normal(r: DomainRule) {
    && r.protocol in {"TCP", "UDP", "TCP+UDP", "ICMP"}
    && r.action in {"ACCEPT", "DROP"}
    && Trimmed(r.ports) && r.ports != ""
    && (r.protocol == "ICMP" ==> r.ports == "ALL")
  }

  /** A rule is accepted exactly with a host, known words for protocol and action, and ports unless it is ICMP;
      what is accepted is the rule itself with those texts trimmed and its words in upper case. */
  lemma RuleAcceptedExactly(r: DomainRule)
    ensures NormalizeRule(r).Some? <==>
              && Trim(r.host) != "" && Upper(Trim(r.protocol)) in {"TCP", "UDP", "TCP+UDP", "ICMP"}
              && Upper(Trim(r.action)) in {"ACCEPT", "DROP"} && (Upper(Trim(r.protocol)) == "ICMP" || Trim(r.ports) != "")
    ensures NormalizeRule(r).Some? ==>
              NormalizeRule(r).value == DomainRule(r.id, Trim(r.host), Upper(Trim(r.protocol)),
                                                   if Upper(Trim(r.protocol)) == "ICMP" then "ALL" else Trim(r.ports),
                                                   Upper(Trim(r.action)), r.targets, r.comment, r.enableIPv6)
  {
    hide Trim, Upper;
  }

  /** A rule as validation leaves it: normal fields and a trimmed host that is not blank. */
  predicate Validated(r: DomainRule) { Normal(r) && Trimmed(r.host) && r.host != "" }

  /** A validated rule is accepted as it is, whatever its protocol and action. */
  lemma NormalRulesStay(r: DomainRule)
    requires Validated(r)
    ensures NormalizeRule(r) == Some(r)
  {
    hide Trim, Upper;
    NormalWordsAreFixed(r);
    TrimOfTrimmed(r.host);
    TrimOfTrimmed(r.ports);
  }

  lemma NormalizedIsNormal(r: DomainRule)
    requires NormalizeRule(r).Some?
    ensures Validated(NormalizeRule(r).value)
  {
    hide Trim, Upper;
    TrimTrims(r.ports);
    TrimTrims(r.host);
  }

  /** Protocol and action of a normal rule are fixed points of every normalisation applied later. */
  lemma NormalWordsAreFixed(r: DomainRule)
    requires Normal(r)
    ensures Upper(Trim(r.protocol)) == r.protocol && Upper(Trim(r.action)) == r.action
  {
    hide Upper, Trim;
    PlainIsFixed(r.protocol);
    PlainIsFixed(r.action);
  }
}
