/** The request adapter: an append-only list of request modifications, built
    through chainable setters and applied in registration order to an
    outgoing request. Each modification assigns one attribute a constant, so a
    modification is a `Rule` value rather than a closure. */
module Adapter {
  import opened Foundation

  /** One registered modification: assign the carried value to one attribute. */
  datatype Rule =
    | SetExpensive(flag: bool)
    | SetConstrained(flag: bool)
    | SetCellular(flag: bool)
    | SetCachePolicy(policy: CachePolicy)
    | SetTimeout(interval: TimeInterval)
    | SetServiceType(serviceType: NetworkServiceType)
    | SetCookies(flag: bool)
    | SetPipelining(flag: bool)

  /** The request attributes an adapter can write. */
  datatype Attribute =
    | Expensive | Constrained | Cellular | Caching | Timeout | Service | Cookies | Pipelining

  /** The value of one attribute, whatever its type. */
  datatype AttributeValue =
    | Flag(b: bool)
    | Policy(p: CachePolicy)
    | Interval(t: TimeInterval)
    | ServiceKind(s: NetworkServiceType)

  function Target(rule: Rule): Attribute
  {
    match rule
    case SetExpensive(_) => Expensive
    case SetConstrained(_) => Constrained
    case SetCellular(_) => Cellular
    case SetCachePolicy(_) => Caching
    case SetTimeout(_) => Timeout
    case SetServiceType(_) => Service
    case SetCookies(_) => Cookies
    case SetPipelining(_) => Pipelining
  }

  function Value(rule: Rule): AttributeValue
  {
    match rule
    case SetExpensive(b) => Flag(b)
    case SetConstrained(b) => Flag(b)
    case SetCellular(b) => Flag(b)
    case SetCachePolicy(p) => Policy(p)
    case SetTimeout(t) => Interval(t)
    case SetServiceType(s) => ServiceKind(s)
    case SetCookies(b) => Flag(b)
    case SetPipelining(b) => Flag(b)
  }

  function Get(request: Request, a: Attribute): AttributeValue
  {
    match a
    case Expensive => Flag(request.allowsExpensiveNetworkAccess)
    case Constrained => Flag(request.allowsConstrainedNetworkAccess)
    case Cellular => Flag(request.allowsCellularAccess)
    case Caching => Policy(request.cachePolicy)
    case Timeout => Interval(request.timeoutInterval)
    case Service => ServiceKind(request.networkServiceType)
    case Cookies => Flag(request.httpShouldHandleCookies)
    case Pipelining => Flag(request.httpShouldUsePipelining)
  }

  /** The two requests agree on what dispatch assembly sets: url, method, body, headers. */
  predicate SameAssembly(r1: Request, r2: Request)
  {
    r1.url == r2.url && r1.httpMethod == r2.httpMethod &&
    r1.httpBody == r2.httpBody && r1.allHTTPHeaderFields == r2.allHTTPHeaderFields
  }

  /** A rule that the setters compiled on every platform can register
      (on Linux the two network-access setters do not exist). */
  predicate Portable(rule: Rule)
  {
    !rule.SetExpensive? && !rule.SetConstrained?
  }

  /** Running one modification: its own attribute takes the rule's value,
      and every other attribute and every assembled field stays as it was. */
  function ApplyRule(request: Request, rule: Rule): (r: Request)
    ensures Get(r, Target(rule)) == Value(rule)
    ensures forall a :: a != Target(rule) ==> Get(r, a) == Get(request, a)
    ensures SameAssembly(r, request)
  {
    match rule
    case SetExpensive(b) => request.(allowsExpensiveNetworkAccess := b)
    case SetConstrained(b) => request.(allowsConstrainedNetworkAccess := b)
    case SetCellular(b) => request.(allowsCellularAccess := b)
    case SetCachePolicy(p) => request.(cachePolicy := p)
    case SetTimeout(t) => request.(timeoutInterval := t)
    case SetServiceType(s) => request.(networkServiceType := s)
    case SetCookies(b) => request.(httpShouldHandleCookies := b)
    case SetPipelining(b) => request.(httpShouldUsePipelining := b)
  }

  /** Running the rules one after another, first registered first. No rule
      can touch the assembled url, method, body or headers. */
  function Apply(request: Request, rules: seq<Rule>): (r: Request)
    ensures SameAssembly(r, request)
    decreases |rules|
  {
    if rules == [] then request else Apply(ApplyRule(request, rules[0]), rules[1..])
  }

  /** Reference definition of an attribute after a run of rules: the value of
      the last rule that targets it, or `initial` if no rule does. */
  function LastWrite(rules: seq<Rule>, a: Attribute, initial: AttributeValue): AttributeValue
    decreases |rules|
  {
    if rules == [] then initial
    else if Target(rules[|rules| - 1]) == a then Value(rules[|rules| - 1])
    else LastWrite(rules[..|rules| - 1], a, initial)
  }

  /** Two requests that agree on the assembled fields and on every attribute are equal. */
  lemma SameRequest(r1: Request, r2: Request)
    requires SameAssembly(r1, r2)
    requires forall a :: Get(r1, a) == Get(r2, a)
    ensures r1 == r2
  {
    assert Get(r1, Expensive) == Get(r2, Expensive);
    assert Get(r1, Constrained) == Get(r2, Constrained);
    assert Get(r1, Cellular) == Get(r2, Cellular);
    assert Get(r1, Caching) == Get(r2, Caching);
    assert Get(r1, Timeout) == Get(r2, Timeout);
    assert Get(r1, Service) == Get(r2, Service);
    assert Get(r1, Cookies) == Get(r2, Cookies);
    assert Get(r1, Pipelining) == Get(r2, Pipelining);
  }

  /** Running `xs` then `ys` is running their concatenation. */
  lemma {:induction false} ApplyConcat(request: Request, xs: seq<Rule>, ys: seq<Rule>)
    ensures Apply(request, xs + ys) == Apply(Apply(request, xs), ys)
    decreases |xs|
  {
    if xs == [] {
      assert xs + ys == ys;
    } else {
      assert (xs + ys)[0] == xs[0];
      assert (xs + ys)[1..] == xs[1..] + ys;
      ApplyConcat(ApplyRule(request, xs[0]), xs[1..], ys);
    }
  }

  /** Registration order: the rule appended last runs last. */
  lemma {:induction false} ApplySnoc(request: Request, rules: seq<Rule>, rule: Rule)
    ensures Apply(request, rules + [rule]) == ApplyRule(Apply(request, rules), rule)
  {
    ApplyConcat(request, rules, [rule]);
    assert [rule][1..] == [];
  }

  /** Every attribute after `Apply` is the one the reference definition names. */
  lemma {:induction false} ApplyAttribute(request: Request, rules: seq<Rule>, a: Attribute)
    ensures Get(Apply(request, rules), a) == LastWrite(rules, a, Get(request, a))
    decreases |rules|
  {
    if rules != [] {
      var n := |rules| - 1;
      assert rules == rules[..n] + [rules[n]];
      ApplySnoc(request, rules[..n], rules[n]);
      ApplyAttribute(request, rules[..n], a);
    }
  }

  lemma {:induction false} LastWriteAt(rules: seq<Rule>, i: nat, a: Attribute, initial: AttributeValue)
    requires i < |rules| && Target(rules[i]) == a
    requires forall j :: i < j < |rules| ==> Target(rules[j]) != a
    ensures LastWrite(rules, a, initial) == Value(rules[i])
    decreases |rules|
  {
    var n := |rules| - 1;
    if i < n {
      LastWriteAt(rules[..n], i, a, initial);
    }
  }

  lemma {:induction false} LastWriteNone(rules: seq<Rule>, a: Attribute, initial: AttributeValue)
    requires forall j :: 0 <= j < |rules| ==> Target(rules[j]) != a
    ensures LastWrite(rules, a, initial) == initial
    decreases |rules|
  {
    if rules != [] {
      LastWriteNone(rules[..|rules| - 1], a, initial);
    }
  }

  lemma {:induction false} LastWriteAbsorbs(rules: seq<Rule>, a: Attribute, initial: AttributeValue)
    ensures LastWrite(rules, a, LastWrite(rules, a, initial)) == LastWrite(rules, a, initial)
    decreases |rules|
  {
    if rules != [] && Target(rules[|rules| - 1]) != a {
      var n := |rules| - 1;
      LastWriteAbsorbs(rules[..n], a, initial);
    }
  }

  /** Last write wins: after `Apply`, an attribute holds the value of the last
      registered rule that sets it, whatever earlier rules set. */
  lemma LastWriteWins(request: Request, rules: seq<Rule>, i: nat)
    requires i < |rules|
    requires forall j :: i < j < |rules| ==> Target(rules[j]) != Target(rules[i])
    ensures Get(Apply(request, rules), Target(rules[i])) == Value(rules[i])
  {
    ApplyAttribute(request, rules, Target(rules[i]));
    LastWriteAt(rules, i, Target(rules[i]), Get(request, Target(rules[i])));
  }

  /** Frame: an attribute that no registered rule sets keeps its value. */
  lemma Untargeted(request: Request, rules: seq<Rule>, a: Attribute)
    requires forall j :: 0 <= j < |rules| ==> Target(rules[j]) != a
    ensures Get(Apply(request, rules), a) == Get(request, a)
  {
    ApplyAttribute(request, rules, a);
    LastWriteNone(rules, a, Get(request, a));
  }

  /** An adapter built only from the setters compiled on Linux never changes
      the expensive- or constrained-network-access flags. */
  lemma PortableKeepsNetworkAccess(request: Request, rules: seq<Rule>)
    requires forall j :: 0 <= j < |rules| ==> Portable(rules[j])
    ensures Apply(request, rules).allowsExpensiveNetworkAccess == request.allowsExpensiveNetworkAccess
    ensures Apply(request, rules).allowsConstrainedNetworkAccess == request.allowsConstrainedNetworkAccess
  {
    Untargeted(request, rules, Expensive);
    Untargeted(request, rules, Constrained);
  }

  /** Every rule is a constant assignment, so applying an adapter twice gives
      the same request as applying it once. */
  lemma ApplyIdempotent(request: Request, rules: seq<Rule>)
    ensures Apply(Apply(request, rules), rules) == Apply(request, rules)
  {
    var once := Apply(request, rules);
    forall a
      ensures Get(Apply(once, rules), a) == Get(once, a)
    {
      ApplyAttribute(once, rules, a);
      ApplyAttribute(request, rules, a);
      LastWriteAbsorbs(rules, a, Get(request, a));
    }
    SameRequest(Apply(once, rules), once);
  }

  /** The adapter (RequestAdapter): the registered modifications, in registration order. */
  class RequestAdapter {
    var modifiers: seq<Rule>

    /** A fresh adapter has no modifications: it is the identity on requests. */
    constructor ()
      ensures modifiers == []
    {
      modifiers := [];
    }

    /** Registers one modification at the end and returns this same adapter. */
    method Append(rule: Rule) returns (chained: RequestAdapter)
      modifies this
      ensures modifiers == old(modifiers) + [rule]
      ensures chained == this
    {
      modifiers := modifiers + [rule];
      chained := this;
    }

    /** Runs every registered modification over `request`, in registration
        order; the adapter itself is not changed, so it can be applied again. */
    method ApplyTo(request: Request) returns (result: Request)
      ensures result == Apply(request, modifiers)
    {
      result := request;
      for i := 0 to |modifiers|
        invariant result == Apply(request, modifiers[..i])
      {
        ApplySnoc(request, modifiers[..i], modifiers[i]);
        assert modifiers[..i + 1] == modifiers[..i] + [modifiers[i]];
        result := ApplyRule(result, modifiers[i]);
      }
      assert modifiers[..|modifiers|] == modifiers;
    }

    // Setters compiled only where the platform has the two network-access flags.

    method AllowsExpensiveNetworkAccess(value: bool) returns (chained: RequestAdapter)
      modifies this
      ensures modifiers == old(modifiers) + [SetExpensive(value)]
      ensures chained == this
    {
      chained := Append(SetExpensive(value));
    }

    method AllowsConstrainedNetworkAccess(value: bool) returns (chained: RequestAdapter)
      modifies this
      ensures modifiers == old(modifiers) + [SetConstrained(value)]
      ensures chained == this
    {
      chained := Append(SetConstrained(value));
    }

    // Setters compiled on every platform.

    method AllowsCellularAccess(value: bool) returns (chained: RequestAdapter)
      modifies this
      ensures modifiers == old(modifiers) + [SetCellular(value)]
      ensures chained == this
    {
      chained := Append(SetCellular(value));
    }

    method CachePolicy(value: Foundation.CachePolicy) returns (chained: RequestAdapter)
      modifies this
      ensures modifiers == old(modifiers) + [SetCachePolicy(value)]
      ensures chained == this
    {
      chained := Append(SetCachePolicy(value));
    }

    method TimeoutInterval(value: TimeInterval) returns (chained: RequestAdapter)
      modifies this
      ensures modifiers == old(modifiers) + [SetTimeout(value)]
      ensures chained == this
    {
      chained := Append(SetTimeout(value));
    }

    method NetworkServiceType(value: Foundation.NetworkServiceType) returns (chained: RequestAdapter)
      modifies this
      ensures modifiers == old(modifiers) + [SetServiceType(value)]
      ensures chained == this
    {
      chained := Append(SetServiceType(value));
    }

    method HttpShouldHandleCookies(value: bool) returns (chained: RequestAdapter)
      modifies this
      ensures modifiers == old(modifiers) + [SetCookies(value)]
      ensures chained == this
    {
      chained := Append(SetCookies(value));
    }

    method HttpShouldUsePipelining(value: bool) returns (chained: RequestAdapter)
      modifies this
      ensures modifiers == old(modifiers) + [SetPipelining(value)]
      ensures chained == this
    {
      chained := Append(SetPipelining(value));
    }
  }
}
