/**
 * The multi-strategy probe of the three orchestrators. `Promise.allSettled`
 * is replaced by its result: one settled outcome per key of the record, in
 * key order. The orchestrators then walk that array once, stopping at the
 * first index that is a success (`fulfilled` with `true`) or a rejection of a
 * recognised kind; the per-index tests differ between versions, which is the
 * `Policy`.
 */
module Probes {
  import opened Common
  import opened Errors

  /** One element of the `Promise.allSettled` array. */
  datatype Outcome = Fulfilled(value: bool) | Rejected(reason: Reason)

  /**
   * The sentinel codes each version compares against. `Current` is the loop of
   * packages/core/src/auth-strategy-manager.ts and src/auth-strategy-manager.ts
   * (network, then timeout, then certificate); `Authorizer` is the loop of
   * src/authorizer.ts (a list of network codes, then certificate).
   */
  datatype Policy =
    | Current(network: string, timeout: string, cert: string)
    | Authorizer(networkErrors: set<string>, certCode: string)

  /** What the loop does at one index. */
  datatype Step = Continue | Win | Raise(thrown: Thrown)

  /** The result of the walk: an index that succeeded, an error thrown, or nothing decisive. */
  datatype Verdict = Winner(index: nat) | Escalated(thrown: Thrown) | NoWinner

  /** `reason?.code ?? reason?.message` */
  function Key(r: Reason): Option<string> {
    if r.code.Some? then r.code else r.message
  }

  /** The body of the loop at one index. */
  function Classify(p: Policy, o: Outcome): Step {
    match o
    case Fulfilled(v) => if v then Win else Continue
    case Rejected(r) =>
      match p
      case Current(network, timeout, cert) =>
        if Key(r) == Some(network) then Raise(Raised(NetworkError(r.message)))
        else if Key(r) == Some(timeout) then Raise(Raised(Timeout3rdPartyError(r.message)))
        else if r.code == Some(cert) then Raise(Raised(CertError()))
        else Continue
      case Authorizer(networkErrors, certCode) =>
        if Key(r).Some? && Key(r).value in networkErrors then Raise(Raised(NetworkError(r.message)))
        else if r.code == Some(certCode) then Raise(Raised(CertError()))
        else Continue
  }

  /** The walk from index `i` on. */
  function Scan(p: Policy, outs: seq<Outcome>, i: nat): (v: Verdict)
    requires i <= |outs|
    ensures v.Winner? ==> i <= v.index < |outs| && outs[v.index] == Fulfilled(true)
    decreases |outs| - i
  {
    if i == |outs| then NoWinner
    else match Classify(p, outs[i])
      case Continue => Scan(p, outs, i + 1)
      case Win => Winner(i)
      case Raise(t) => Escalated(t)
  }

  /** No index before `k` (from `i` on) is decisive. */
  ghost predicate Undecided(p: Policy, outs: seq<Outcome>, i: nat, k: nat)
    requires i <= k <= |outs|
  {
    forall j :: i <= j < k ==> Classify(p, outs[j]) == Continue
  }

  /** The first decisive index decides the walk, whatever comes after it. */
  lemma {:induction false} FirstDecisiveDecides(p: Policy, outs: seq<Outcome>, i: nat, k: nat)
    requires i <= k < |outs|
    requires Undecided(p, outs, i, k)
    ensures Classify(p, outs[k]) == Win ==> Scan(p, outs, i) == Winner(k)
    ensures Classify(p, outs[k]).Raise? ==> Scan(p, outs, i) == Escalated(Classify(p, outs[k]).thrown)
    ensures Classify(p, outs[k]) == Continue ==> Scan(p, outs, i) == Scan(p, outs, k + 1)
    decreases k - i
  {
    if i < k {
      FirstDecisiveDecides(p, outs, i + 1, k);
    }
  }

  /** Nothing decisive anywhere exactly when the walk finds nothing. */
  lemma {:induction false} NoWinnerIff(p: Policy, outs: seq<Outcome>, i: nat)
    requires i <= |outs|
    ensures Scan(p, outs, i) == NoWinner <==> Undecided(p, outs, i, |outs|)
    decreases |outs| - i
  {
    if i < |outs| {
      NoWinnerIff(p, outs, i + 1);
    }
  }

  /** A winner is a fulfilled `true` with nothing decisive before it. */
  lemma {:induction false} WinnerIsFirst(p: Policy, outs: seq<Outcome>, i: nat)
    requires i <= |outs|
    ensures Scan(p, outs, i).Winner? ==> Undecided(p, outs, i, Scan(p, outs, i).index)
    ensures Scan(p, outs, i).Escalated? ==>
              (exists k :: i <= k < |outs| && Undecided(p, outs, i, k) && Classify(p, outs[k]) == Raise(Scan(p, outs, i).thrown))
    decreases |outs| - i
  {
    if i < |outs| {
      WinnerIsFirst(p, outs, i + 1);
      if Classify(p, outs[i]).Raise? {
        assert Undecided(p, outs, i, i);
      }
    }
  }

  /** The loop: walk the settled array once, in key order. */
  method FoldOutcomes(p: Policy, outs: seq<Outcome>) returns (v: Verdict)
    ensures v == Scan(p, outs, 0)
  {
    var index := 0;
    while index < |outs|
      invariant 0 <= index <= |outs|
      invariant Scan(p, outs, 0) == Scan(p, outs, index)
    {
      match Classify(p, outs[index])
      case Win =>
        return Winner(index);
      case Raise(t) =>
        return Escalated(t);
      case Continue =>
        index := index + 1;
    }
    v := NoWinner;
  }

  /** The outcome of a `check` call. */
  datatype CheckResult = Returned(authenticated: bool) | Threw(thrown: Thrown)

  /** What a multi-strategy probe returns and which name, if any, it writes as the active one. */
  datatype Decision = Decision(result: CheckResult, activate: Option<string>)

  /** The multi-strategy path shared by all versions. */
  function FoldDecision(keys: seq<string>, p: Policy, outs: seq<Outcome>): (d: Decision)
    requires |outs| == |keys|
  {
    match Scan(p, outs, 0)
    case Winner(k) => Decision(Returned(true), Some(keys[k]))
    case Escalated(t) => Decision(Threw(t), None)
    case NoWinner => Decision(Returned(false), None)
  }

  /** The first `true` in key order wins, when nothing decisive comes before it; later indices do not matter. */
  lemma FirstSuccessWins(keys: seq<string>, p: Policy, outs: seq<Outcome>, k: nat)
    requires |outs| == |keys| && k < |outs|
    requires outs[k] == Fulfilled(true) && Undecided(p, outs, 0, k)
    ensures FoldDecision(keys, p, outs) == Decision(Returned(true), Some(keys[k]))
  {
    FirstDecisiveDecides(p, outs, 0, k);
  }

  /**
   * A recognised rejection throws when only non-decisive indices precede it,
   * even when a LATER index succeeded: success suppresses only the rejections
   * that come after it.
   */
  lemma EarlierRejectionThrows(keys: seq<string>, p: Policy, outs: seq<Outcome>, k: nat)
    requires |outs| == |keys| && k < |outs|
    requires Classify(p, outs[k]).Raise? && Undecided(p, outs, 0, k)
    ensures FoldDecision(keys, p, outs) == Decision(Threw(Classify(p, outs[k]).thrown), None)
  {
    FirstDecisiveDecides(p, outs, 0, k);
  }

  /** `false` and no write exactly when no index is decisive. */
  lemma NothingDecisive(keys: seq<string>, p: Policy, outs: seq<Outcome>)
    requires |outs| == |keys|
    ensures FoldDecision(keys, p, outs) == Decision(Returned(false), None) <==> Undecided(p, outs, 0, |outs|)
  {
    NoWinnerIff(p, outs, 0);
  }

  /** The probe returns `true` exactly when it writes a name, and that name is the first success. */
  lemma ActivatesFirstSuccess(keys: seq<string>, p: Policy, outs: seq<Outcome>)
    requires |outs| == |keys|
    ensures FoldDecision(keys, p, outs).result == Returned(true) <==> FoldDecision(keys, p, outs).activate.Some?
    ensures FoldDecision(keys, p, outs).activate.Some? ==>
              (exists k :: 0 <= k < |keys| && keys[k] == FoldDecision(keys, p, outs).activate.value &&
                           outs[k] == Fulfilled(true) && Undecided(p, outs, 0, k))
  {
    WinnerIsFirst(p, outs, 0);
  }

  /** Per index, the network test comes first: a network key throws a NetworkError carrying the reason's message. */
  lemma NetworkFirst(network: string, timeout: string, cert: string, message: Option<string>, code: Option<string>)
    requires code == Some(network) || (code == None && message == Some(network))
    ensures Classify(Current(network, timeout, cert), Rejected(Reason(code, message))) == Raise(Raised(NetworkError(message)))
  {
  }

  /** The code, when present, hides the message: a message equal to a sentinel is then ignored. */
  lemma CodeHidesMessage(network: string, timeout: string, cert: string, code: string, message: Option<string>)
    requires code != network && code != timeout && code != cert
    ensures Classify(Current(network, timeout, cert), Rejected(Reason(Some(code), message))) == Continue
  {
  }

  /** The certificate test reads `code` only: a certificate message without a code is not escalated. */
  lemma CertByCodeOnly(network: string, timeout: string, cert: string)
    requires cert != network && cert != timeout
    ensures Classify(Current(network, timeout, cert), Rejected(Reason(Some(cert), None))) == Raise(Raised(CertError()))
    ensures Classify(Current(network, timeout, cert), Rejected(Reason(None, Some(cert)))) == Continue
  {
  }

  /** A timeout key is matched before the certificate code. */
  lemma TimeoutBeforeCert(network: string, timeout: string, cert: string, message: Option<string>)
    requires timeout != network
    ensures Classify(Current(network, timeout, cert), Rejected(Reason(Some(timeout), message))) ==
              Raise(Raised(Timeout3rdPartyError(message)))
  {
  }

  /** The Authorizer matches any listed network code and has no timeout class. */
  lemma AuthorizerClasses(networkErrors: set<string>, certCode: string, code: string, message: Option<string>)
    ensures code in networkErrors ==>
              Classify(Authorizer(networkErrors, certCode), Rejected(Reason(Some(code), message))) == Raise(Raised(NetworkError(message)))
    ensures code !in networkErrors && code != certCode ==>
              Classify(Authorizer(networkErrors, certCode), Rejected(Reason(Some(code), message))) == Continue
    ensures certCode !in networkErrors ==>
              Classify(Authorizer(networkErrors, certCode), Rejected(Reason(Some(certCode), message))) == Raise(Raised(CertError()))
    ensures certCode !in networkErrors ==>
              Classify(Authorizer(networkErrors, certCode), Rejected(Reason(None, Some(certCode)))) == Continue
  {
  }

  /** How the awaited `signIn()` of a Keycloak strategy settled. */
  datatype Settled = Resolved | Failed(reason: Reason)

  /** A check-then-signIn run: what it returns and how many times `signIn` was called. */
  datatype SignedCheck = SignedCheck(result: CheckResult, signInCalls: nat)

  /**
   * The single-Keycloak path of src/: await `check()`, then await `signIn()`,
   * then return the `check` result. A rejection of either propagates.
   */
  function CheckThenSignIn(check: Outcome, signIn: Settled): (c: SignedCheck)
    ensures c.signInCalls == (if check.Fulfilled? then 1 else 0)
    ensures check.Fulfilled? && signIn.Resolved? ==> c.result == Returned(check.value)
  {
    match check
    case Rejected(r) => SignedCheck(Threw(Raw(r)), 0)
    case Fulfilled(v) =>
      match signIn
      case Resolved => SignedCheck(Returned(v), 1)
      case Failed(r) => SignedCheck(Threw(Raw(r)), 1)
  }

  /**
   * What a src/ orchestrator's `check` returns, writes and how often it signs in:
   * one Keycloak strategy takes the check-then-signIn path; every other record
   * (a single non-Keycloak strategy included) goes through the fold.
   */
  function SrcCheckSpec(keys: seq<string>, onlyKeycloak: bool, p: Policy, outs: seq<Outcome>, signIn: Settled):
    (r: (Decision, nat))
    requires |outs| == |keys|
  {
    if |keys| == 1 && onlyKeycloak then
      var c := CheckThenSignIn(outs[0], signIn);
      (Decision(c.result, None), c.signInCalls)
    else (FoldDecision(keys, p, outs), 0)
  }

  /** A single Keycloak strategy: signIn exactly once after a fulfilled check, whose value is returned whatever it was. */
  lemma KeycloakSignsInOnce(key: string, p: Policy, v: bool)
    ensures SrcCheckSpec([key], true, p, [Fulfilled(v)], Resolved) == (Decision(Returned(v), None), 1)
  {
  }

  /** A single non-Keycloak strategy is folded: a success is written as the active name (unlike packages/core). */
  lemma SingleNonKeycloakFolds(key: string, p: Policy, o: Outcome, signIn: Settled)
    ensures SrcCheckSpec([key], false, p, [o], signIn).1 == 0
    ensures o == Fulfilled(true) ==> SrcCheckSpec([key], false, p, [o], signIn).0 == Decision(Returned(true), Some(key))
    ensures Classify(p, o) == Continue ==> SrcCheckSpec([key], false, p, [o], signIn).0 == Decision(Returned(false), None)
  {
    assert Scan(p, [o], 1) == NoWinner;
  }
}
