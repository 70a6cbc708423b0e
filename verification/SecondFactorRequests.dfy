/**
 What each second-factor request does, in terms of the stored tables alone: which row a sign-in opens, what a switch, a resend
 and a code leave in it, and when each is refused. Five attempts and ten minutes are written out.
 */
module SecondFactorRequests {
  import opened Wrappers
  import opened SecondFactor
  import opened SecondFactorLaws

  // A confirmed factor of the subject that can be used: an e-mail address only with a mail sender.
  predicate Offers(cfg: Config, factors: map<nat, Factor>, subject: nat, id: nat) {
    && id in factors && factors[id].subject == subject && factors[id].confirmed
    && (factors[id].kind == Email ==> cfg.mailer)
  }

  // The authenticator comes first, then a passkey, then e-mail.
  function Rank(kind: Kind): nat {
    match kind
    case Totp => 0
    case Passkey => 1
    case Email => 2
  }

  // The oldest usable factor of a kind.
  ghost predicate Oldest(cfg: Config, factors: map<nat, Factor>, subject: nat, kind: Kind, id: nat) {
    && Offers(cfg, factors, subject, id) && factors[id].kind == kind
    && forall other :: Offers(cfg, factors, subject, other) && factors[other].kind == kind ==> id <= other
  }

  // The oldest of the first kind that has one.
  ghost predicate Best(cfg: Config, factors: map<nat, Factor>, subject: nat, id: nat) {
    && id in factors && Oldest(cfg, factors, subject, factors[id].kind, id)
    && forall other :: Offers(cfg, factors, subject, other) ==> Rank(factors[id].kind) <= Rank(factors[other].kind)
  }

  ghost predicate NothingUsable(cfg: Config, factors: map<nat, Factor>, subject: nat) {
    forall id :: !Offers(cfg, factors, subject, id)
  }

  // A code can be mailed to the factor's address.
  predicate MailGoesOut(cfg: Config, factor: Factor, faults: set<Fault>) {
    factor.hasAddress && cfg.mailer && faults !! {LoadFactor, Random, SendMail}
  }

  // ---------- the lists in order ----------

  predicate Ascending(ids: seq<nat>) {
    forall i, j :: 0 <= i < j < |ids| ==> ids[i] < ids[j]
  }

  lemma {:induction false} ListedAscends(factors: map<nat, Factor>, upto: nat, subject: nat)
    ensures Ascending(Listed(factors, upto, subject))
  {
    if upto != 0 {
      ListedAscends(factors, upto - 1, subject);
      ListedOk(factors, upto - 1, subject);
      var front := Listed(factors, upto - 1, subject);
      forall i | 0 <= i < |front| ensures front[i] < upto - 1 { assert front[i] in front; }
    }
  }

  lemma {:induction false} UsableAscends(cfg: Config, factors: map<nat, Factor>, ids: seq<nat>)
    requires Ascending(ids)
    ensures Ascending(Usable(cfg, factors, ids))
  {
    if ids != [] {
      var front := ids[..|ids| - 1];
      UsableAscends(cfg, factors, front);
      UsableOk(cfg, factors, front);
      var kept := Usable(cfg, factors, front);
      forall i | 0 <= i < |kept| ensures kept[i] < ids[|ids| - 1] {
        assert kept[i] in kept && kept[i] in front;
      }
    }
  }

  lemma {:induction false} FirstIsLeast(factors: map<nat, Factor>, ids: seq<nat>, kind: Kind)
    requires Ascending(ids)
    ensures var r := FirstOf(factors, ids, kind);
            r.Some? ==> forall id :: id in ids && id in factors && factors[id].kind == kind ==> r.value <= id
  {
    if ids != [] { FirstIsLeast(factors, ids[1..], kind); }
  }

  lemma {:induction false} FirstOfIsOldest(cfg: Config, w: World, subject: nat, kind: Kind)
    requires FactorsOk(w.factors, w.nextFactor)
    ensures var r := FirstOf(w.factors, UsableOf(cfg, w, subject), kind);
            && (r.Some? ==> Oldest(cfg, w.factors, subject, kind, r.value))
            && (r.None? ==> forall id :: Offers(cfg, w.factors, subject, id) ==> w.factors[id].kind != kind)
  {
    var ids := UsableOf(cfg, w, subject);
    UsableOfOk(cfg, w, subject);
    ListedAscends(w.factors, w.nextFactor, subject);
    UsableAscends(cfg, w.factors, Listed(w.factors, w.nextFactor, subject));
    FirstOk(w.factors, ids, kind);
    FirstIsLeast(w.factors, ids, kind);
    hide UsableOf, FirstOf;
  }

  lemma {:induction false} PreferredIsBest(cfg: Config, w: World, subject: nat)
    requires FactorsOk(w.factors, w.nextFactor)
    ensures UsableOf(cfg, w, subject) == [] <==> NothingUsable(cfg, w.factors, subject)
    ensures UsableOf(cfg, w, subject) != [] ==> Best(cfg, w.factors, subject, Preferred(w.factors, UsableOf(cfg, w, subject)))
  {
    var ids := UsableOf(cfg, w, subject);
    UsableOfOk(cfg, w, subject);
    FirstOfIsOldest(cfg, w, subject, Totp);
    FirstOfIsOldest(cfg, w, subject, Passkey);
    FirstOfIsOldest(cfg, w, subject, Email);
    if ids != [] {
      assert ids[0] in ids;
      assert Offers(cfg, w.factors, subject, ids[0]);
    }
    hide UsableOf, FirstOf;
  }

  // ---------- a sign-in begins ----------

  // The row that enrols a fresh authenticator, and the one that asks for a factor.
  function Enrolment(subject: nat, secret: nat, now: int): Row {
    Row(subject, Some(Totp), None, Some(secret), None, false, 0, now + 600)
  }

  function Asking(subject: nat, id: nat, kind: Kind, code: nat, now: int): Row {
    Row(subject, Some(kind), Some(id), None, if kind == Email then Some(code) else None, false, 0, now + 600)
  }

  function Blank(subject: nat, now: int): Row {
    Row(subject, None, None, None, None, false, 0, now + 600)
  }

  // The row for a subject with something usable: it asks for that factor, unless a mail that it needs cannot go out.
  function Opening(cfg: Config, factors: map<nat, Factor>, subject: nat, id: nat, code: nat, now: int, faults: set<Fault>): Row
    requires id in factors
  {
    if factors[id].kind == Email && !MailGoesOut(cfg, factors[id], faults) then Blank(subject, now)
    else Asking(subject, id, factors[id].kind, code, now)
  }

  /**
   A sign-in stores, under a new token, a row of its subject that lasts ten minutes. It enrols the drawn secret if and only if
   the subject has no usable factor; otherwise it asks for the best one, and is blank only if that is an e-mail address the
   mail could not go out to. It is refused, with nothing stored, exactly when something it needs fails or a blank row is not
   accepted.
   */
  lemma {:induction false} ABeginOpensOnTheBestFactor(cfg: Config, w: World, subject: nat, secret: nat, code: nat, now: int, faults: set<Fault>)
    requires Sound(cfg, w)
    ensures var (w', reply) := Step(cfg, w, Begin(subject, secret, code), now, faults);
            && w.nextToken !in w.rows && (reply == Page || (reply == ServerError && w' == w))
            && (reply == Page ==>
                  && w.nextToken in w'.rows && w'.rows == w.rows[w.nextToken := w'.rows[w.nextToken]]
                  && w'.factors == w.factors && w'.history.sessions == w.history.sessions
                  && (w'.rows[w.nextToken] == Enrolment(subject, secret, now) <==> NothingUsable(cfg, w.factors, subject)))
            && (reply == Page && !NothingUsable(cfg, w.factors, subject) ==>
                  exists id :: Best(cfg, w.factors, subject, id)
                               && w'.rows[w.nextToken] == Opening(cfg, w.factors, subject, id, code, now, faults))
            && (reply == Page <==>
                  && faults !! {LoadFactors, RandomToken, CreateRow}
                  && (NothingUsable(cfg, w.factors, subject) ==> faults !! {Random, Encrypt})
                  && (cfg.blankAllowed || forall id :: Best(cfg, w.factors, subject, id) && w.factors[id].kind == Email ==>
                                                         MailGoesOut(cfg, w.factors[id], faults)))
  {
    TheRowOfABegin(cfg, w, subject, secret, code, now, faults);
    assert w.nextToken !in w.rows;
    hide Sound, BeginRow, NothingUsable, MailGoesOut;
    if !NothingUsable(cfg, w.factors, subject) && LoadFactors !in faults {
      var id :| Best(cfg, w.factors, subject, id)
                && BeginRow(cfg, w, Begin(subject, secret, code), now, faults) == Some(Opening(cfg, w.factors, subject, id, code, now, faults));
      forall other | Best(cfg, w.factors, subject, other) ensures other == id { OneBest(cfg, w.factors, subject, id, other); }
      hide Best;
    }
  }

  lemma {:induction false} TheRowOfABegin(cfg: Config, w: World, subject: nat, secret: nat, code: nat, now: int, faults: set<Fault>)
    requires Sound(cfg, w)
    ensures var row := BeginRow(cfg, w, Begin(subject, secret, code), now, faults);
            && (row.None? <==> LoadFactors in faults || (NothingUsable(cfg, w.factors, subject) && !(faults !! {Random, Encrypt})))
            && (row.Some? && NothingUsable(cfg, w.factors, subject) ==> row.value == Enrolment(subject, secret, now))
            && (row.Some? && !NothingUsable(cfg, w.factors, subject) ==>
                  exists id :: Best(cfg, w.factors, subject, id) && row.value == Opening(cfg, w.factors, subject, id, code, now, faults))
  {
    PreferredIsBest(cfg, w, subject);
    var ids := UsableOf(cfg, w, subject);
    hide UsableOf, Preferred, NothingUsable;
    if ids != [] {
      var id := Preferred(w.factors, ids);
      assert Best(cfg, w.factors, subject, id) && id in w.factors;
      hide Best;
    }
  }

  lemma {:induction false} OneBest(cfg: Config, factors: map<nat, Factor>, subject: nat, a: nat, b: nat)
    requires Best(cfg, factors, subject, a) && Best(cfg, factors, subject, b)
    ensures a == b
  {
    assert Offers(cfg, factors, subject, a) && Offers(cfg, factors, subject, b);
  }

  // A sign-in is challenged when the deployment says so, or when a usable factor is found.
  lemma {:induction false} ChallengedIff(cfg: Config, w: World, armed: bool, subject: nat, faults: set<Fault>)
    requires Sound(cfg, w)
    ensures SecondFactorRequired(cfg, w, armed, subject, faults) <==>
              armed || (LoadFactors !in faults && !NothingUsable(cfg, w.factors, subject))
  {
    PreferredIsBest(cfg, w, subject);
  }

  // ---------- requests of an open step ----------

  predicate Live(w: World, token: nat, now: int, faults: set<Fault>) {
    LoadStep !in faults && token in w.rows && now < w.rows[token].expires && w.rows[token].attempts < 5
  }

  predicate OfStep(e: Event) {
    e.Enter? || e.Choose? || e.Resend? || e.PasskeyBegin? || e.PasskeyFinish?
  }

  // A token that is unknown, expired or used up is refused, whatever is asked, and nothing changes.
  lemma {:induction false} OnlyALiveStepIsServed(cfg: Config, w: World, e: Event, now: int, faults: set<Fault>)
    requires Sound(cfg, w) && OfStep(e)
    ensures Step(cfg, w, e, now, faults).1 == NoSuchStep <==> !Live(w, e.token, now, faults)
    ensures !Live(w, e.token, now, faults) ==> Step(cfg, w, e, now, faults).0 == w
  {
    if e.token in w.rows { CompletesIff(w, e.token, faults); }
    hide Sound, CompleteStep, UsableOf, FirstOf, Verify, Prepare;
  }

  // Everything about the step but its method stays: no switch or resend buys time or attempts.
  function Rewritten(row: Row, via: Option<Kind>, factor: Option<nat>, code: Option<nat>, ceremony: bool): Row {
    row.(via := via, factor := factor, secret := None, code := code, ceremony := ceremony)
  }

  /**
   Switching a live step to a kind opens it on the oldest usable factor of that kind, with a fresh code if it is mailed, and
   leaves its time and attempts alone. It is unavailable, and nothing changes, exactly when there is none or its mail cannot go
   out.
   */
  lemma {:induction false} ASwitchOpensOnTheOldest(cfg: Config, w: World, token: nat, kind: Kind, code: nat, now: int, faults: set<Fault>)
    requires Sound(cfg, w) && Live(w, token, now, faults)
    ensures var (w', reply) := Step(cfg, w, Choose(token, Of(kind), code), now, faults);
            var row := w.rows[token];
            && (reply == ServerError || reply == Unavailable || reply == Page)
            && (reply != Page ==> w'.rows == w.rows)
            && (reply == Unavailable <==>
                  && LoadFactors !in faults
                  && forall id :: Oldest(cfg, w.factors, row.subject, kind, id) ==> kind == Email && !MailGoesOut(cfg, w.factors[id], faults))
            && (reply == ServerError <==> LoadFactors in faults || (reply != Unavailable && SwitchRow in faults))
            && (reply == Page ==>
                  exists id :: Oldest(cfg, w.factors, row.subject, kind, id)
                               && w'.rows == w.rows[token := Rewritten(row, Some(kind), Some(id), if kind == Email then Some(code) else None, false)])
  {
    var row := w.rows[token];
    FirstOfIsOldest(cfg, w, row.subject, kind);
    var chosen := FirstOf(w.factors, UsableOf(cfg, w, row.subject), kind);
    hide UsableOf, FirstOf;
    if chosen.Some? {
      assert Oldest(cfg, w.factors, row.subject, kind, chosen.value);
      forall id | Oldest(cfg, w.factors, row.subject, kind, id) ensures id == chosen.value { }
    } else {
      assert forall id :: !Oldest(cfg, w.factors, row.subject, kind, id);
    }
  }

  // The picker leaves the step without a method, where the table accepts that; text that names no kind is unavailable.
  lemma {:induction false} ThePickerBlanksTheStep(cfg: Config, w: World, token: nat, code: nat, now: int, faults: set<Fault>)
    requires Sound(cfg, w) && Live(w, token, now, faults)
    ensures Step(cfg, w, Choose(token, Picker, code), now, faults) ==
            if SwitchRow !in faults && cfg.blankAllowed
            then (w.(rows := w.rows[token := Rewritten(w.rows[token], None, None, None, false)]), Page) else (w, ServerError)
    ensures Step(cfg, w, Choose(token, SecondFactor.Unknown, code), now, faults) ==
            (w, if LoadFactors in faults then ServerError else Unavailable)
  {
    assert RowOk(cfg, w.factors, w.rows[token]);
  }

  // A resend mails a fresh code for the same step, and stores it unless storing it fails; any other step has none to resend.
  lemma {:induction false} AResendReplacesTheCode(cfg: Config, w: World, token: nat, code: nat, now: int, faults: set<Fault>)
    requires Sound(cfg, w) && Live(w, token, now, faults)
    ensures var (w', reply) := Step(cfg, w, Resend(token, code), now, faults);
            var mailable := w.rows[token].via == Some(Email) && cfg.mailer && faults !! {LoadFactor, Random, SendMail};
            && reply == (if mailable && SetCode !in faults then Page else Unavailable)
            && w'.rows == (if reply == Page then w.rows[token := w.rows[token].(code := Some(code))] else w.rows)
            && w'.factors == w.factors && w'.history.sessions == w.history.sessions
  {
    assert RowOk(cfg, w.factors, w.rows[token]);
  }

  // ---------- codes ----------

  // What a code is checked against: the step's own secret or its authenticator's, or the code mailed for it.
  predicate Checkable(w: World, row: Row, faults: set<Fault>) {
    match row.via
    case Some(Totp) => Decrypt !in faults && (row.secret.Some? || LoadFactor !in faults)
    case Some(Email) => true
    case _ => false
  }

  predicate RightCode(w: World, row: Row, typed: Typed) {
    match row.via
    case Some(Totp) =>
      if row.secret.Some? then row.secret.value in typed.validFor
      else row.factor.Some? && row.factor.value in w.factors
           && w.factors[row.factor.value].secret.Some? && w.factors[row.factor.value].secret.value in typed.validFor
    case Some(Email) => row.code == Some(typed.digits)
    case _ => false
  }

  // The subject signs in once the step is consumed, its enrolment or use recorded, and a session issued; the step is gone
  // from the first of these on.
  ghost predicate Completes(w: World, w': World, reply: Reply, token: nat, faults: set<Fault>)
    requires token in w.rows
  {
    var row := w.rows[token];
    && (ConsumeRow in faults ==> w' == w && reply == ServerError)
    && (ConsumeRow !in faults ==> w'.rows == w.rows - {token})
    && (reply == SignedIn(row.subject) || reply == ServerError)
    && (reply == SignedIn(row.subject) <==>
          faults !! {ConsumeRow, IssueSession} && (if row.secret.Some? then Upsert !in faults else row.factor.Some? ==> Touch !in faults))
    && w'.history.sessions == w.history.sessions + (if reply.SignedIn? then [Session(token, row.subject)] else [])
    && Records(w, w', row, faults)
  }

  // An enrolment leaves the subject that one authenticator, a use touches its factor, and no other factor changes.
  ghost predicate Records(w: World, w': World, row: Row, faults: set<Fault>) {
    if ConsumeRow in faults || (row.secret.Some? && Upsert in faults) || (row.secret.None? && Touch in faults) then w'.factors == w.factors
    else if row.secret.Some? then
      exists id :: OnlyAuthenticator(w'.factors, id, row.subject, row.secret) && w'.factors == w.factors[id := w'.factors[id]]
    else
      w'.factors == if row.factor.Some? && row.factor.value in w.factors
                    then w.factors[row.factor.value := w.factors[row.factor.value].(confirmed := true)] else w.factors
  }

  // A wrong code costs one of five attempts; the fifth ends the step. A failure to record it costs nothing.
  ghost predicate CostsAnAttempt(w: World, w': World, reply: Reply, token: nat, faults: set<Fault>)
    requires token in w.rows
  {
    var row := w.rows[token];
    && w'.factors == w.factors && w'.history.sessions == w.history.sessions
    && (FailRow in faults ==> w'.rows == w.rows && reply == Spent)
    && (FailRow !in faults && row.attempts >= 4 ==> w'.rows == w.rows - {token} && reply == Spent)
    && (FailRow !in faults && row.attempts < 4 ==>
          && w'.rows == w.rows[token := row.(attempts := row.attempts + 1)]
          && reply == if FailAck in faults then Spent else WrongCode(5 - (row.attempts + 1)))
  }

  /**
   A code entered for a live step: the right one completes the sign-in, a wrong one costs an attempt, and one that cannot be
   checked, or no code at all, changes nothing.
   */
  lemma {:induction false} ACodeIsRightOrCosts(cfg: Config, w: World, token: nat, typed: Option<Typed>, now: int, faults: set<Fault>)
    requires Sound(cfg, w) && Live(w, token, now, faults)
    ensures var (w', reply) := Step(cfg, w, Enter(token, typed), now, faults);
            var row := w.rows[token];
            && (typed.None? ==> w' == w && reply == Page)
            && (typed.Some? && !Checkable(w, row, faults) ==> w' == w && reply == Unchecked)
            && (typed.Some? && Checkable(w, row, faults) ==>
                  if RightCode(w, row, typed.value) then Completes(w, w', reply, token, faults)
                  else CostsAnAttempt(w, w', reply, token, faults))
  {
    assert RowOk(cfg, w.factors, w.rows[token]);
    CompletesIff(w, token, faults);
    hide CompleteStep, FactorsOk, Completes;
  }

  lemma {:induction false} CompletesIff(w: World, token: nat, faults: set<Fault>)
    requires token in w.rows && FactorsOk(w.factors, w.nextFactor)
    ensures var (w', reply) := CompleteStep(w, token, faults); Completes(w, w', reply, token, faults)
  {
    var row := w.rows[token];
    var w1 := w.(rows := w.rows - {token});
    if row.secret.Some? {
      var id := EnrolKeeps(w1, row.subject, row.secret.value);
      EnrolKeepsTheRest(w1, row.subject, row.secret.value);
    }
    hide EnrolTotp, OnlyAuthenticator, FactorsOk;
  }

  lemma {:induction false} EnrolKeepsTheRest(w: World, subject: nat, secret: nat)
    ensures var w' := EnrolTotp(w, subject, secret); w'.rows == w.rows && w'.history == w.history && w'.nextToken == w.nextToken
  {
  }

  // ---------- passkeys ----------

  // A passkey step is begun, where passkeys are configured and one is enrolled, and then accepted or not; anything that keeps
  // a response from being accepted costs an attempt.
  lemma {:induction false} APasskeyIsAcceptedOrCosts(cfg: Config, w: World, token: nat, accepted: bool, now: int, faults: set<Fault>)
    requires Sound(cfg, w) && Live(w, token, now, faults)
    ensures var (w', reply) := Step(cfg, w, PasskeyFinish(token, accepted), now, faults);
            var row := w.rows[token];
            if row.via != Some(Passkey) || !row.ceremony then w' == w && reply == Unavailable
            else if accepted && cfg.webAuthn && faults !! {LoadFactors, LoadFactor} then Completes(w, w', reply, token, faults)
            else CostsAnAttempt(w, w', reply, token, faults)
    ensures var (w', reply) := Step(cfg, w, PasskeyBegin(token), now, faults);
            var row := w.rows[token];
            var begun := row.via == Some(Passkey) && cfg.webAuthn && LoadFactors !in faults;
            && reply == (if !begun then Unavailable else if SwitchRow in faults then ServerError else Page)
            && w' == if reply == Page then w.(rows := w.rows[token := row.(ceremony := true)]) else w
  {
    assert RowOk(cfg, w.factors, w.rows[token]);
    CompletesIff(w, token, faults);
    hide CompleteStep, FactorsOk, Completes;
  }

  // ---------- meanwhile ----------

  ghost predicate OnlyOne(factors: map<nat, Factor>, subject: nat, kind: Kind, k: nat) {
    k in factors && forall id :: id in factors && factors[id].subject == subject && factors[id].kind == kind ==> id == k
  }

  // Enrolling an authenticator or an address leaves the subject one of that kind, the new one, confirmed if it already was.
  lemma {:induction false} AnEnrolmentReplaces(cfg: Config, w: World, f: Factor, now: int, faults: set<Fault>)
    requires Sound(cfg, w)
    ensures var w' := Step(cfg, w, SetFactor(f), now, faults).0;
            if f.kind == Passkey || (f.kind == Totp && f.secret.None?) then w' == w
            else
              exists k :: OnlyOne(w'.factors, f.subject, f.kind, k) && w'.factors == w.factors[k := w'.factors[k]] && w'.rows == w.rows
                          && w'.factors[k] == f.(confirmed := f.confirmed || (k in w.factors && w.factors[k].confirmed))
  {
    var w' := SetFactorStep(w, f);
    SetFactorKeeps(w, f);
    if f.kind != Passkey && (f.kind == Totp ==> f.secret.Some?) {
      var held := HeldFactor(w.factors, f.subject, f.kind);
      var k := if held.Some? then held.value else w.nextFactor;
      forall id | id in w'.factors && w'.factors[id].subject == f.subject && w'.factors[id].kind == f.kind ensures id == k {
        assert SameSlot(w'.factors, id, k);
      }
      assert OnlyOne(w'.factors, f.subject, f.kind, k) && w'.factors == w.factors[k := w'.factors[k]];
    }
  }

  // A deleted factor takes its open steps with it, and clearing a subject's steps takes those and no others.
  lemma {:induction false} StepsGoWithTheirFactor(cfg: Config, w: World, id: nat, subject: nat, now: int, faults: set<Fault>)
    requires Sound(cfg, w)
    ensures var w' := Step(cfg, w, DeleteFactor(id), now, faults).0;
            && w'.factors == w.factors - {id}
            && (forall t :: t in w'.rows <==> t in w.rows && w.rows[t].factor != Some(id))
            && (forall t :: t in w'.rows ==> w'.rows[t] == w.rows[t])
    ensures var w' := Step(cfg, w, ClearSteps(subject), now, faults).0;
            && w'.factors == w.factors
            && (forall t :: t in w'.rows <==> t in w.rows && w.rows[t].subject != subject)
            && (forall t :: t in w'.rows ==> w'.rows[t] == w.rows[t])
    ensures var w' := Step(cfg, w, AddPasskey(subject), now, faults).0;
            && w'.rows == w.rows && w.nextFactor !in w.factors
            && w'.factors == w.factors[w.nextFactor := Factor(subject, Passkey, None, false, true)]
  {
  }
}
