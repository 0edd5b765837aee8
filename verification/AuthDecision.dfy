/** Decisions of the policy service, how a reply becomes one, and how long one may be leased. */
module AuthDecision {
  import opened Basics

  datatype AuthResult = SUCCESS | ACCESS_DENIED | INTERNAL_ERROR | PENDING

  /** Times are milliseconds; `expiresAt == 0` means no expiry. */
  datatype Decision = Decision(result: AuthResult, authoritative: bool, expiresAt: nat,
                               freshMs: nat, maxAgeMs: nat, revision: string)

  const NO_DECISION := Decision(INTERNAL_ERROR, false, 0, 0, 0, "")

  const MAX_UINT64: nat := 0xFFFF_FFFF_FFFF_FFFF

  /** A JSON member: absent, an unsigned integer, a negative integer, or anything else. */
  datatype JsonNumber = Missing | Unsigned(n: nat) | Negative | NotInteger

  datatype Reply =
    | Json(allow: bool, expireAt: JsonNumber, ttl: JsonNumber, maximum: JsonNumber, revision: string)
    | Proto(outcome: Outcome, expiresAtMs: nat, ttlMs: nat, maxAgeMs: nat, revision: string)

  datatype Outcome = Allow | Deny | Unspecified

  /** Refusals are leased for at most a second. */
  function Shorten(d: Decision): Decision {
    if d.result == SUCCESS then d else
      d.(freshMs := Min(1000, d.freshMs), maxAgeMs := Min(1000, d.freshMs))
  }

  function ParseJson(r: Reply, freshLimit: nat, ageLimit: nat, wall: nat): Decision
    requires r.Json?
  {
    var outcome := if r.allow then SUCCESS else ACCESS_DENIED;
    if r.expireAt.Negative? || r.expireAt.NotInteger? || |r.revision| > 128 ||
       (r.expireAt.Unsigned? && (r.expireAt.n == 0 || r.expireAt.n > MAX_UINT64 / 1000))
    then NO_DECISION
    else
      var expires := if r.expireAt.Missing? then 0 else r.expireAt.n * 1000;
      var result := if r.expireAt.Unsigned? && expires <= wall then ACCESS_DENIED else outcome;
      var base := Decision(result, true, expires, 0, 0, r.revision);
      if freshLimit == 0 || !r.ttl.Unsigned? then base else
        var ttl := Min(freshLimit, r.ttl.n);
        var age := if r.maximum.Unsigned? then Min(ageLimit, r.maximum.n) else ttl;
        Shorten(base.(freshMs := Min(ttl, age), maxAgeMs := age))
  }

  function ParseProto(r: Reply, freshLimit: nat, ageLimit: nat, wall: nat): Decision
    requires r.Proto?
  {
    if r.outcome.Unspecified? || |r.revision| > 128 then NO_DECISION else
      var allowed := r.outcome.Allow? && !(r.expiresAtMs != 0 && r.expiresAtMs <= wall);
      var age := Min(ageLimit, r.maxAgeMs);
      Shorten(Decision(if allowed then SUCCESS else ACCESS_DENIED, true, r.expiresAtMs,
                       Min(Min(freshLimit, r.ttlMs), age), age, r.revision))
  }

  /** A reply the provider can act on. */
  predicate Intelligible(r: Reply) {
    |r.revision| <= 128 &&
    match r
    case Json(_, expireAt, _, _, _) => expireAt.Missing? || (expireAt.Unsigned? && 1 <= expireAt.n <= MAX_UINT64 / 1000)
    case Proto(outcome, _, _, _, _) => !outcome.Unspecified?
  }

  function Parse(r: Reply, freshLimit: nat, ageLimit: nat, wall: nat): (d: Decision)
    ensures freshLimit <= ageLimit ==> d.freshMs <= d.maxAgeMs <= ageLimit
    ensures d.freshMs <= freshLimit && (d.result != SUCCESS ==> d.maxAgeMs <= 1000)
    ensures d.authoritative <==> Intelligible(r)
    ensures d.authoritative ==> d.revision == r.revision && d.result != INTERNAL_ERROR && d.result != PENDING
    ensures d.authoritative ==>
      d.expiresAt == if r.Proto? then r.expiresAtMs else if r.expireAt.Unsigned? then r.expireAt.n * 1000 else 0
    ensures d.result == SUCCESS ==> d.authoritative && (d.expiresAt == 0 || wall < d.expiresAt)
    ensures d.result == SUCCESS <==>
      match r
      case Json(allow, expireAt, _, _, revision) =>
        allow && |revision| <= 128 &&
        (expireAt.Missing? || (expireAt.Unsigned? && wall < expireAt.n * 1000 && expireAt.n <= MAX_UINT64 / 1000))
      case Proto(outcome, expiresAtMs, _, _, revision) =>
        outcome.Allow? && |revision| <= 128 && (expiresAtMs == 0 || wall < expiresAtMs)
  {
    if r.Json? then ParseJson(r, freshLimit, ageLimit, wall) else ParseProto(r, freshLimit, ageLimit, wall)
  }

  /** A permission in force at this wall-clock time: the service's own word is to allow, nothing in the
      reply is out of range, and its expiry, if it has one, is still ahead. */
  predicate Permits(r: Reply, wall: nat) {
    |r.revision| <= 128 &&
    match r
    case Json(allow, expireAt, _, _, _) =>
      && allow
      && (|| expireAt.Missing?
          || (expireAt.Unsigned? && expireAt.n <= MAX_UINT64 / 1000 && wall < expireAt.n * 1000))
    case Proto(outcome, expiresAtMs, _, _, _) => outcome == Allow && (expiresAtMs == 0 || wall < expiresAtMs)
  }

  function ReplyExpiry(r: Reply): nat {
    if r.Proto? then r.expiresAtMs else if r.expireAt.Unsigned? then r.expireAt.n * 1000 else 0
  }

  /** The decision says what the reply says. */
  predicate Carries(d: Decision, r: Reply, wall: nat) {
    && d.authoritative && d.result == (if Permits(r, wall) then SUCCESS else ACCESS_DENIED)
    && d.expiresAt == ReplyExpiry(r) && d.revision == r.revision
  }

  /** A decision is authoritative exactly for an intelligible reply, which it then carries; and otherwise
      it is no decision. */
  lemma ParseCarries(r: Reply, freshLimit: nat, ageLimit: nat, wall: nat)
    ensures var d := Parse(r, freshLimit, ageLimit, wall);
      if Intelligible(r) then Carries(d, r, wall) else d == NO_DECISION
    ensures Permits(r, wall) ==> Intelligible(r)
  {
  }

  /** What a reply offers for reuse: a time to live and perhaps a maximum age, or nothing. */
  datatype Offer = Nothing | Reuse(ttl: nat, bounded: bool, maximum: nat)

  function Offered(r: Reply, freshLimit: nat): Offer {
    match r
    case Json(_, _, ttl, maximum, _) =>
      if ttl.Unsigned? && freshLimit != 0
      then Reuse(ttl.n, maximum.Unsigned?, if maximum.Unsigned? then maximum.n else 0) else Nothing
    case Proto(_, _, ttl, maximum, _) => Reuse(ttl, true, maximum)
  }

  predicate IsLeast(x: nat, s: set<nat>) { x in s && forall y :: y in s ==> x <= y }

  /** How long a decision may be reused: not at all when the reply is unintelligible or offers
      nothing; otherwise it is fresh for the least of all the limits that apply, the operator's,
      the service's and a second for refusals, and kept as long, or up to the maximum age. */
  lemma ParsedLease(r: Reply, freshLimit: nat, ageLimit: nat, wall: nat)
    ensures var d, offer := Parse(r, freshLimit, ageLimit, wall), Offered(r, freshLimit);
      if !Intelligible(r) || offer.Nothing? then d.freshMs == d.maxAgeMs == 0 else
        && IsLeast(d.freshMs, {freshLimit, offer.ttl} + (if offer.bounded then {ageLimit, offer.maximum} else {})
                              + (if d.result == SUCCESS then {} else {1000}))
        && (if d.result == SUCCESS && offer.bounded
              then IsLeast(d.maxAgeMs, {ageLimit, offer.maximum}) else d.maxAgeMs == d.freshMs)
  {
  }

  /** One expiry bound: mono and wall are the two clock readings taken at completion. */
  function Bounded(expires: nat, bound: nat, mono: nat, wall: nat): nat {
    if bound == 0 then expires else Min(expires, mono + if bound > wall then bound - wall else 0)
  }

  function LeaseExpiry(started: nat, d: Decision, session: nat, mono: nat, wall: nat): nat {
    Bounded(Bounded(started + d.maxAgeMs, session, mono, wall), d.expiresAt, mono, wall)
  }

  /** The times a lease must end by: the age counted from the start of its job and, for each expiry that
      is set, the monotonic reading and what the wall reading leaves of it. */
  function Ends(started: nat, d: Decision, session: nat, mono: nat, wall: nat): set<nat> {
    {started + d.maxAgeMs}
    + (if session == 0 then {} else {if session > wall then mono + (session - wall) else mono})
    + (if d.expiresAt == 0 then {} else {if d.expiresAt > wall then mono + (d.expiresAt - wall) else mono})
  }

  /** A lease ends at the least of them, neither later nor sooner. */
  lemma ExpiryIsLeast(started: nat, d: Decision, session: nat, mono: nat, wall: nat)
    ensures IsLeast(LeaseExpiry(started, d, session, mono, wall), Ends(started, d, session, mono, wall))
  {
  }

  /** The wall clock is read before the monotonic one, and the two differ by a constant offset.
      A lease that is not over when it is stored ends by each of its bounds up to the time that
      passed between the readings; and by a bound itself exactly when no time passed, or when
      another bound is tighter by that much. */
  lemma ExpiryIsExact(started: nat, d: Decision, session: nat, offset: nat, wallRead: nat, drift: nat)
    requires wallRead + drift < LeaseExpiry(started, d, session, wallRead + drift, wallRead + offset)
    ensures var expires := LeaseExpiry(started, d, session, wallRead + drift, wallRead + offset);
      var age, bound := started + d.maxAgeMs, d.expiresAt;
      && expires <= age
      && (session != 0 ==> expires + offset <= session + drift)
      && (session != 0 ==>
            (expires + offset <= session <==>
             drift == 0 || age + offset <= session || (bound != 0 && bound + drift <= session)))
      && (bound != 0 ==> expires + offset <= bound + drift)
      && (bound != 0 ==>
            (expires + offset <= bound <==>
             drift == 0 || age + offset <= bound || (session != 0 && session + drift <= bound)))
  {
  }
}
