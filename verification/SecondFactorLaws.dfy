/**
 What every run of second-factor requests keeps: rows stay well formed on every path, a session is earned by the secret or
 the code the row held and uses its row up, and the attempt budget is spent by wrong codes alone.
 */
module SecondFactorLaws {
  import opened Wrappers
  import opened SecondFactor

  // ---------- the factors a step may use ----------

  lemma {:induction false} ListedOk(factors: map<nat, Factor>, upto: nat, subject: nat)
    ensures forall id :: id in Listed(factors, upto, subject) <==> id < upto && id in factors && factors[id].subject == subject
  {
    if upto != 0 { ListedOk(factors, upto - 1, subject); }
  }

  lemma {:induction false} UsableOk(cfg: Config, factors: map<nat, Factor>, ids: seq<nat>)
    ensures forall id :: id in Usable(cfg, factors, ids) <==> id in ids && id in factors && UsableFactor(cfg, factors[id])
  {
    if ids != [] {
      UsableOk(cfg, factors, ids[..|ids| - 1]);
      assert ids == ids[..|ids| - 1] + [ids[|ids| - 1]];
    }
  }

  lemma {:induction false} FirstOk(factors: map<nat, Factor>, ids: seq<nat>, kind: Kind)
    ensures var r := FirstOf(factors, ids, kind);
            && (r.Some? ==> r.value in ids && r.value in factors && factors[r.value].kind == kind)
            && (r.None? ==> forall id :: id in ids && id in factors ==> factors[id].kind != kind)
  {
    if ids != [] { FirstOk(factors, ids[1..], kind); }
  }

  lemma {:induction false} UsableOfOk(cfg: Config, w: World, subject: nat)
    requires FactorsOk(w.factors, w.nextFactor)
    ensures forall id :: id in UsableOf(cfg, w, subject) <==>
                         id in w.factors && w.factors[id].subject == subject && UsableFactor(cfg, w.factors[id])
  {
    ListedOk(w.factors, w.nextFactor, subject);
    UsableOk(cfg, w.factors, Listed(w.factors, w.nextFactor, subject));
  }

  /**
   A step opens on a usable factor of its subject, an authenticator if there is a usable one, otherwise a passkey if there
   is one; on an emailed code only when nothing else is usable, and then only with a mail sender.
   */
  lemma {:induction false} PreferredIsUsable(cfg: Config, w: World, subject: nat)
    requires FactorsOk(w.factors, w.nextFactor) && UsableOf(cfg, w, subject) != []
    ensures var id := Preferred(w.factors, UsableOf(cfg, w, subject));
            && id in w.factors && w.factors[id].subject == subject && UsableFactor(cfg, w.factors[id])
            && (forall other :: other in UsableOf(cfg, w, subject) && other in w.factors && w.factors[other].kind == Totp ==> w.factors[id].kind == Totp)
            && (forall other :: other in UsableOf(cfg, w, subject) && other in w.factors && w.factors[other].kind != Email ==> w.factors[id].kind != Email)
  {
    var ids := UsableOf(cfg, w, subject);
    UsableOfOk(cfg, w, subject);
    FirstOk(w.factors, ids, Totp);
    FirstOk(w.factors, ids, Passkey);
    FirstOk(w.factors, ids, Email);
  }

  // ---------- well-formed rows ----------

  // Every change to the factors keeps what a row says about its own factor, unless the row goes with it.
  ghost predicate FactorsAgree(w: World, w': World) {
    forall id :: id in w.factors && id in w'.factors ==>
      w'.factors[id].subject == w.factors[id].subject && w'.factors[id].kind == w.factors[id].kind
  }

  // Putting a factor into its subject's slot keeps slots single.
  lemma {:induction false} SlotKeeps(w: World, w': World, id: nat, f: Factor)
    requires FactorsOk(w.factors, w.nextFactor) && f.kind != Passkey && (f.kind == Totp ==> f.secret.Some?)
    requires HeldFactor(w.factors, f.subject, f.kind) == if id in w.factors then Some(id) else None
    requires id in w.factors || id == w.nextFactor
    requires w' == w.(factors := w.factors[id := f], nextFactor := if id in w.factors then w.nextFactor else w.nextFactor + 1)
    ensures FactorsOk(w'.factors, w'.nextFactor) && FactorsAgree(w, w')
  {
    forall i, j | SameSlot(w'.factors, i, j) ensures i == j {
      if i != id && j != id {
        assert SameSlot(w.factors, i, j);
      } else if id in w.factors {
        assert SameSlot(w.factors, if i == id then id else i, if j == id then id else j);
      }
    }
  }

  // The subject has one authenticator: this one, confirmed, with this secret.
  ghost predicate OnlyAuthenticator(factors: map<nat, Factor>, id: nat, subject: nat, secret: Option<nat>) {
    && id in factors && factors[id] == Factor(subject, Totp, secret, true, true)
    && (forall other :: other in factors && factors[other].subject == subject && factors[other].kind == Totp ==> other == id)
  }

  // Completing an enrolment leaves the subject exactly one authenticator, confirmed, with the secret of the step.
  lemma {:induction false} EnrolKeeps(w: World, subject: nat, secret: nat) returns (id: nat)
    requires FactorsOk(w.factors, w.nextFactor)
    ensures var w' := EnrolTotp(w, subject, secret);
            && FactorsOk(w'.factors, w'.nextFactor) && FactorsAgree(w, w')
            && w' == w.(factors := w.factors[id := Factor(subject, Totp, Some(secret), true, true)], nextFactor := w'.nextFactor)
            && OnlyAuthenticator(w'.factors, id, subject, Some(secret))
  {
    var held := HeldFactor(w.factors, subject, Totp);
    id := if held.Some? then held.value else w.nextFactor;
    var w' := EnrolTotp(w, subject, secret);
    SlotKeeps(w, w', id, Factor(subject, Totp, Some(secret), true, true));
    forall other | other in w'.factors && w'.factors[other].subject == subject && w'.factors[other].kind == Totp
      ensures other == id
    {
      assert SameSlot(w'.factors, other, id);
    }
  }

  lemma {:induction false} SetFactorKeeps(w: World, f: Factor)
    requires FactorsOk(w.factors, w.nextFactor)
    ensures var w' := SetFactorStep(w, f);
            && FactorsOk(w'.factors, w'.nextFactor) && FactorsAgree(w, w') && w.factors.Keys <= w'.factors.Keys
            && w' == w.(factors := w'.factors, nextFactor := w'.nextFactor)
  {
    var w' := SetFactorStep(w, f);
    if f.kind != Passkey && (f.kind == Totp ==> f.secret.Some?) {
      var held := HeldFactor(w.factors, f.subject, f.kind);
      if held.Some? {
        SlotKeeps(w, w', held.value, f.(confirmed := f.confirmed || w.factors[held.value].confirmed));
      } else {
        SlotKeeps(w, w', w.nextFactor, f);
      }
    }
  }

  lemma {:induction false} RowStaysOk(cfg: Config, w: World, w': World, row: Row)
    requires RowOk(cfg, w.factors, row) && FactorsAgree(w, w')
    requires row.factor.Some? ==> row.factor.value in w'.factors
    ensures RowOk(cfg, w'.factors, row)
  {
  }

  // What CompleteStep does to the factors.
  lemma {:induction false} CompleteShape(cfg: Config, w: World, token: nat, faults: set<Fault>)
    requires Sound(cfg, w) && token in w.rows
    ensures var (w', reply) := CompleteStep(w, token, faults);
            && FactorsOk(w'.factors, w'.nextFactor) && FactorsAgree(w, w') && w.factors.Keys <= w'.factors.Keys
            && w'.nextToken == w.nextToken
            && w'.rows == (if ConsumeRow in faults then w.rows else w.rows - {token})
            && (reply.SignedIn? ==> reply.subject == w.rows[token].subject && token !in w'.rows
                                    && w'.history == w.history.(sessions := w.history.sessions + [Session(token, reply.subject)]))
            && (!reply.SignedIn? ==> w'.history == w.history)
  {
    var row := w.rows[token];
    var w1 := w.(rows := w.rows - {token});
    if ConsumeRow !in faults && row.secret.Some? && Upsert !in faults {
      var id := EnrolKeeps(w1, row.subject, row.secret.value);
    } else if ConsumeRow !in faults && row.secret.None? && row.factor.Some? && row.factor.value in w.factors {
      var w2 := w1.(factors := w1.factors[row.factor.value := w1.factors[row.factor.value].(confirmed := true)]);
      forall i, j | SameSlot(w2.factors, i, j) ensures i == j { assert SameSlot(w.factors, i, j); }
    }
  }

  lemma {:induction false} BeginKeeps(cfg: Config, w: World, e: Event, now: int, faults: set<Fault>)
    requires Sound(cfg, w) && e.Begin?
    ensures Sound(cfg, BeginStep(cfg, w, e, now, faults).0)
  {
    var row := BeginRow(cfg, w, e, now, faults);
    if row.Some? && Storable(cfg, row.value) {
      if UsableOf(cfg, w, e.subject) != [] { PreferredIsUsable(cfg, w, e.subject); }
      assert RowOk(cfg, w.factors, row.value);
    }
  }

  lemma {:induction false} ChooseKeeps(cfg: Config, w: World, e: Event, now: int, faults: set<Fault>)
    requires Sound(cfg, w) && e.Choose?
    ensures Sound(cfg, ChooseStep(cfg, w, e, now, faults).0)
  {
    if Found(w, e.token, now, faults) && e.choice.Of? {
      var row := w.rows[e.token];
      UsableOfOk(cfg, w, row.subject);
      FirstOk(w.factors, UsableOf(cfg, w, row.subject), e.choice.kind);
    }
  }

  lemma {:induction false} FailKeeps(cfg: Config, w: World, token: nat, faults: set<Fault>)
    requires Sound(cfg, w) && token in w.rows
    ensures Sound(cfg, FailStep(w, token, faults).0)
  {
    assert RowOk(cfg, w.factors, w.rows[token]);
  }

  lemma {:induction false} RowsStayOk(cfg: Config, w: World, w': World)
    requires Sound(cfg, w) && FactorsOk(w'.factors, w'.nextFactor) && FactorsAgree(w, w') && w'.nextToken == w.nextToken
    requires forall t :: t in w'.rows ==> t in w.rows && w'.rows[t] == w.rows[t]
                                          && (w.rows[t].factor.Some? ==> w.rows[t].factor.value in w'.factors)
    ensures Sound(cfg, w')
  {
    forall t | t in w'.rows ensures RowOk(cfg, w'.factors, w'.rows[t]) {
      RowStaysOk(cfg, w, w', w.rows[t]);
    }
  }

  // A row of a well-formed world names only factors that exist.
  lemma {:induction false} RowFactorExists(cfg: Config, w: World, t: nat)
    requires Sound(cfg, w) && t in w.rows && w.rows[t].factor.Some?
    ensures w.rows[t].factor.value in w.factors
  {
    assert RowOk(cfg, w.factors, w.rows[t]);
  }

  lemma {:induction false} ElsewhereKeeps(cfg: Config, w: World, e: Event, now: int, faults: set<Fault>)
    requires Sound(cfg, w)
    requires e.SetFactor? || e.AddPasskey? || e.ConfirmFactor? || e.DeleteFactor? || e.ClearSteps?
    ensures Sound(cfg, Step(cfg, w, e, now, faults).0)
  {
    var w' := Step(cfg, w, e, now, faults).0;
    if e.SetFactor? {
      SetFactorKeeps(w, e.factor);
    } else {
      forall i, j | SameSlot(w'.factors, i, j) ensures i == j { assert SameSlot(w.factors, i, j); }
    }
    forall t | t in w'.rows && w.rows[t].factor.Some? ensures w.rows[t].factor.value in w'.factors {
      RowFactorExists(cfg, w, t);
    }
    RowsStayOk(cfg, w, w');
  }

  lemma {:induction false} StepKeepsRows(cfg: Config, w: World, e: Event, now: int, faults: set<Fault>)
    requires Sound(cfg, w)
    ensures Sound(cfg, Step(cfg, w, e, now, faults).0)
  {
    match e
    case Begin(_, _, _) => BeginKeeps(cfg, w, e, now, faults);
    case Choose(_, _, _) => ChooseKeeps(cfg, w, e, now, faults);
    case Resend(token, _) => if token in w.rows { assert RowOk(cfg, w.factors, w.rows[token]); }
    case Enter(token, _) =>
      if token in w.rows {
        FailKeeps(cfg, w, token, faults);
        CompleteKeeps(cfg, w, token, faults);
      }
    case PasskeyBegin(token) => if token in w.rows { assert RowOk(cfg, w.factors, w.rows[token]); }
    case PasskeyFinish(token, _) =>
      if token in w.rows {
        FailKeeps(cfg, w, token, faults);
        CompleteKeeps(cfg, w, token, faults);
      }
    case _ => ElsewhereKeeps(cfg, w, e, now, faults);
  }

  lemma {:induction false} CompleteKeeps(cfg: Config, w: World, token: nat, faults: set<Fault>)
    requires Sound(cfg, w) && token in w.rows
    ensures Sound(cfg, CompleteStep(w, token, faults).0)
  {
    CompleteShape(cfg, w, token, faults);
    var w' := CompleteStep(w, token, faults).0;
    forall t | t in w'.rows && w.rows[t].factor.Some? ensures w.rows[t].factor.value in w'.factors {
      RowFactorExists(cfg, w, t);
    }
    RowsStayOk(cfg, w, w');
  }

  /**
   Every reachable row is well formed, whatever fails and whatever happens to the factors meanwhile: a blank method has no
   factor, secret or code; an authenticator step has exactly one of its own secret and an authenticator of its subject; an
   emailed step has an email factor of its subject and a code; a passkey step has a passkey of its subject.
   */
  lemma {:induction false} EveryRowIsWellFormed(cfg: Config, w: World, requests: seq<Request>)
    requires Sound(cfg, w)
    ensures Sound(cfg, Run(cfg, w, requests))
    decreases |requests|
  {
    if requests != [] {
      StepKeepsRows(cfg, w, requests[0].event, requests[0].now, requests[0].faults);
      EveryRowIsWellFormed(cfg, Step(cfg, w, requests[0].event, requests[0].now, requests[0].faults).0, requests[1..]);
    }
  }

  // ---------- the attempt budget and the codes ----------

  predicate Untouched(h: History, t: nat) {
    t !in h.wrong && t !in h.lost && t !in h.mailed && t !in h.stored && t !in h.stale
  }

  predicate TokenOk(w: World, t: nat) {
    && Count(w.history.lost, t) <= Count(w.history.wrong, t) <= Count(w.history.lost, t) + MAX_ATTEMPTS
    && (t >= w.nextToken ==> t !in w.rows && Untouched(w.history, t))
    && (t in w.rows ==>
          && w.rows[t].attempts == Count(w.history.wrong, t) - Count(w.history.lost, t) < MAX_ATTEMPTS
          && (w.rows[t].via == Some(Email) ==>
                && t in w.history.stored && w.rows[t].code == Some(w.history.stored[t])
                && (t !in w.history.stale ==> t in w.history.mailed && w.history.mailed[t] == w.history.stored[t])))
  }

  ghost predicate SessionsOk(w: World) {
    && (forall i :: 0 <= i < |w.history.sessions| ==>
          w.history.sessions[i].token < w.nextToken && w.history.sessions[i].token !in w.rows)
    && (forall i, j :: 0 <= i < j < |w.history.sessions| ==> w.history.sessions[i].token != w.history.sessions[j].token)
  }

  ghost predicate Accounted(w: World) {
    (forall t :: TokenOk(w, t)) && SessionsOk(w)
  }

  lemma {:induction false} FailTokens(w: World, token: nat, faults: set<Fault>, t: nat)
    requires token in w.rows && TokenOk(w, token) && TokenOk(w, t)
    ensures TokenOk(FailStep(w, token, faults).0, t)
  {
  }

  // A step that touches no row but the one of `token`, and starts none.
  ghost predicate OneRow(w: World, w': World, token: nat) {
    && w'.nextToken == w.nextToken && w'.rows.Keys <= w.rows.Keys
    && (forall t :: t in w'.rows && t != token ==> w'.rows[t] == w.rows[t])
    && w'.history.wrong == w.history.wrong && w'.history.lost == w.history.lost && w'.history.sessions == w.history.sessions
    && (forall t :: t != token ==>
          && (t in w'.history.mailed <==> t in w.history.mailed) && Count(w'.history.mailed, t) == Count(w.history.mailed, t)
          && (t in w'.history.stored <==> t in w.history.stored) && Count(w'.history.stored, t) == Count(w.history.stored, t)
          && (t in w'.history.stale <==> t in w.history.stale))
  }

  lemma {:induction false} OneRowTokens(w: World, w': World, token: nat, t: nat)
    requires OneRow(w, w', token) && TokenOk(w, t) && (t == token ==> TokenOk(w', t))
    ensures TokenOk(w', t)
    ensures SessionsOk(w) ==> SessionsOk(w')
  {
  }

  lemma {:induction false} BeginTokens(cfg: Config, w: World, e: Event, now: int, faults: set<Fault>, t: nat)
    requires Sound(cfg, w) && TokenOk(w, t) && TokenOk(w, w.nextToken) && e.Begin?
    ensures TokenOk(BeginStep(cfg, w, e, now, faults).0, t)
    ensures SessionsOk(w) ==> SessionsOk(BeginStep(cfg, w, e, now, faults).0)
  {
    var row := BeginRow(cfg, w, e, now, faults);
    if row.Some? {
      assert row.value.attempts == 0;
      if row.value.via == Some(Email) { BeginMails(cfg, w, e, now, faults); }
      hide BeginRow;
    }
  }

  // A row rewritten together with the mailing of its code.
  lemma {:induction false} RewriteTokens(w: World, token: nat, row: Row, code: Option<nat>)
    requires TokenOk(w, token) && token in w.rows && row.attempts == w.rows[token].attempts
    requires row.code == code && (row.via == Some(Email) ==> code.Some?)
    ensures var w' := w.(rows := w.rows[token := row], history := Mailed(w.history, token, code, true));
            OneRow(w, w', token) && TokenOk(w', token)
    ensures var w' := w.(history := Mailed(w.history, token, code, false)); OneRow(w, w', token) && TokenOk(w', token)
  {
  }

  lemma {:induction false} ChooseTokens(cfg: Config, w: World, e: Event, now: int, faults: set<Fault>)
    requires e.Choose? && TokenOk(w, e.token)
    ensures var w' := ChooseStep(cfg, w, e, now, faults).0; OneRow(w, w', e.token) && TokenOk(w', e.token)
  {
    assert OneRow(w, w, e.token);
    if Found(w, e.token, now, faults) {
      var row := w.rows[e.token];
      RewriteTokens(w, e.token, Switched(row, None, None, None, false), None);
      if e.choice.Of? {
        var chosen := FirstOf(w.factors, UsableOf(cfg, w, row.subject), e.choice.kind);
        if chosen.Some? {
          var ready := Prepare(cfg, w.factors, e.choice.kind, chosen.value, e.code, faults);
          if ready.Success? {
            RewriteTokens(w, e.token, Switched(row, Some(e.choice.kind), chosen, ready.value, false), ready.value);
          }
        }
      }
    }
    hide TokenOk, OneRow, FirstOf, UsableOf, Mailed, Prepare;
  }

  lemma {:induction false} ResendTokens(cfg: Config, w: World, e: Event, now: int, faults: set<Fault>)
    requires Sound(cfg, w) && e.Resend? && TokenOk(w, e.token)
    ensures var w' := ResendStep(cfg, w, e, now, faults).0; OneRow(w, w', e.token) && TokenOk(w', e.token)
  {
  }

  lemma {:induction false} PasskeyBeginTokens(cfg: Config, w: World, e: Event, now: int, faults: set<Fault>)
    requires Sound(cfg, w) && e.PasskeyBegin? && TokenOk(w, e.token)
    ensures var w' := PasskeyStep(cfg, w, e, now, faults).0; OneRow(w, w', e.token) && TokenOk(w', e.token)
  {
  }

  predicate Elsewhere(e: Event) {
    e.SetFactor? || e.AddPasskey? || e.ConfirmFactor? || e.DeleteFactor? || e.ClearSteps?
  }

  lemma {:induction false} ElsewhereTokens(cfg: Config, w: World, e: Event, now: int, faults: set<Fault>, t: nat)
    requires Sound(cfg, w) && Elsewhere(e) && TokenOk(w, t)
    ensures var w' := Step(cfg, w, e, now, faults).0; OneRow(w, w', t) && TokenOk(w', t)
  {
    if e.SetFactor? { SetFactorKeeps(w, e.factor); }
  }

  // One request keeps the account of one token and of the sessions.
  lemma {:induction false} StepTokens(cfg: Config, w: World, e: Event, now: int, faults: set<Fault>, t: nat)
    requires Sound(cfg, w) && Accounted(w)
    ensures TokenOk(Step(cfg, w, e, now, faults).0, t)
    ensures SessionsOk(Step(cfg, w, e, now, faults).0)
  {
    var w' := Step(cfg, w, e, now, faults).0;
    assert TokenOk(w, t);
    if e.Begin? {
      assert TokenOk(w, w.nextToken);
      BeginTokens(cfg, w, e, now, faults, t);
    } else if Elsewhere(e) {
      ElsewhereTokens(cfg, w, e, now, faults, t);
      OneRowTokens(w, w', t, t);
    } else {
      assert TokenOk(w, e.token);
      if e.Enter? || e.PasskeyFinish? {
        CodeTokens(cfg, w, e.token, faults, t);
      } else {
        if e.Choose? { ChooseTokens(cfg, w, e, now, faults); }
        else if e.Resend? { ResendTokens(cfg, w, e, now, faults); }
        else { PasskeyBeginTokens(cfg, w, e, now, faults); }
        OneRowTokens(w, w', e.token, t);
      }
    }
    hide TokenOk, SessionsOk, CompleteStep, FailStep, ChooseStep, ResendStep, BeginStep, OneRow;
  }

  lemma {:induction false} CodeTokens(cfg: Config, w: World, token: nat, faults: set<Fault>, t: nat)
    requires Sound(cfg, w) && TokenOk(w, token) && TokenOk(w, t)
    ensures token in w.rows ==> TokenOk(FailStep(w, token, faults).0, t) && TokenOk(CompleteStep(w, token, faults).0, t)
    ensures token in w.rows && SessionsOk(w) ==> SessionsOk(FailStep(w, token, faults).0) && SessionsOk(CompleteStep(w, token, faults).0)
  {
    if token in w.rows {
      FailTokens(w, token, faults, t);
      CompleteShape(cfg, w, token, faults);
      hide CompleteStep;
    }
  }

  lemma {:induction false} BeginMails(cfg: Config, w: World, e: Event, now: int, faults: set<Fault>)
    requires Sound(cfg, w) && e.Begin? && BeginRow(cfg, w, e, now, faults).Some?
    requires BeginRow(cfg, w, e, now, faults).value.via == Some(Email)
    ensures BeginRow(cfg, w, e, now, faults).value.code == Some(e.code)
  {
    if UsableOf(cfg, w, e.subject) != [] { PreferredIsUsable(cfg, w, e.subject); }
  }

  lemma {:induction false} StepKeepsAll(cfg: Config, w: World, e: Event, now: int, faults: set<Fault>)
    requires Sound(cfg, w) && Accounted(w)
    ensures var w' := Step(cfg, w, e, now, faults).0; Sound(cfg, w') && Accounted(w')
  {
    var w' := Step(cfg, w, e, now, faults).0;
    StepKeepsRows(cfg, w, e, now, faults);
    forall t ensures TokenOk(w', t) && SessionsOk(w') { StepTokens(cfg, w, e, now, faults, t); }
    assert TokenOk(w', 0);
  }

  lemma {:induction false} RunAccounts(cfg: Config, w: World, requests: seq<Request>)
    requires Sound(cfg, w) && Accounted(w)
    ensures Sound(cfg, Run(cfg, w, requests)) && Accounted(Run(cfg, w, requests))
    decreases |requests|
  {
    if requests != [] {
      var q := requests[0];
      var w' := Step(cfg, w, q.event, q.now, q.faults).0;
      StepKeepsAll(cfg, w, q.event, q.now, q.faults);
      RunAccounts(cfg, w', requests[1..]);
    }
  }

  lemma {:induction false} EmptyIsFine(cfg: Config)
    ensures Sound(cfg, EMPTY) && Accounted(EMPTY)
  {
  }

  // ---------- main results ----------

  // What the presented code had to be: the secret or the code that the row, or its factor, held when it was entered.
  ghost predicate Earned(w: World, row: Row, token: nat, typed: Typed) {
    match row.via
    case Some(Totp) =>
      if row.secret.Some? then row.secret.value in typed.validFor
      else FactorIs(w.factors, row.factor, row.subject, Totp) && w.factors[row.factor.value].secret.Some?
           && w.factors[row.factor.value].secret.value in typed.validFor
    case Some(Email) =>
      && token in w.history.stored && typed.digits == w.history.stored[token]
      && (token !in w.history.stale ==> token in w.history.mailed && typed.digits == w.history.mailed[token])
    case _ => false
  }

  /**
   A session issued for a code consumes the live row of its token, for that row's subject, and the code was the right one:
   valid for the step's own secret or its authenticator's, or the last code mailed for the step and stored (the last
   mailed, unless storing a later one failed). A step that carried a secret leaves the subject exactly one authenticator,
   confirmed, with the secret that was checked.
   */
  lemma {:induction false} SignInIsEarned(cfg: Config, requests: seq<Request>, e: Event, now: int, faults: set<Fault>)
    requires e.Enter?
    ensures var w := Run(cfg, EMPTY, requests);
            var (w', reply) := Step(cfg, w, e, now, faults);
            reply.SignedIn? ==>
              && e.token in w.rows && w.rows[e.token].expires > now && reply.subject == w.rows[e.token].subject
              && e.typed.Some? && Earned(w, w.rows[e.token], e.token, e.typed.value)
              && w'.rows == w.rows - {e.token}
              && w'.history.sessions == w.history.sessions + [Session(e.token, reply.subject)]
              && (w.rows[e.token].secret.Some? ==>
                    exists id :: OnlyAuthenticator(w'.factors, id, reply.subject, w.rows[e.token].secret))
  {
    EmptyIsFine(cfg);
    RunAccounts(cfg, EMPTY, requests);
    var w := Run(cfg, EMPTY, requests);
    if Found(w, e.token, now, faults) {
      var row := w.rows[e.token];
      assert RowOk(cfg, w.factors, row) && TokenOk(w, e.token);
      CompleteShape(cfg, w, e.token, faults);
      if row.secret.Some? {
        var id := EnrolKeeps(w.(rows := w.rows - {e.token}), row.subject, row.secret.value);
        assert OnlyAuthenticator(EnrolTotp(w.(rows := w.rows - {e.token}), row.subject, row.secret.value).factors, id, row.subject, row.secret);
      }
      hide Run, OnlyAuthenticator, EnrolTotp;
    }
  }

  // Over any run the sessions issued have distinct tokens, and the row of each is gone: no step signs in twice.
  lemma {:induction false} EachSessionUsesUpItsStep(cfg: Config, requests: seq<Request>)
    ensures SessionsOk(Run(cfg, EMPTY, requests))
  {
    EmptyIsFine(cfg);
    RunAccounts(cfg, EMPTY, requests);
  }

  // A token whose row is gone never has one again, and never signs in.
  lemma {:induction false} SpentStaysSpent(cfg: Config, w: World, requests: seq<Request>, t: nat)
    requires Sound(cfg, w) && Accounted(w) && t < w.nextToken && t !in w.rows
    ensures var w' := Run(cfg, w, requests);
            && t !in w'.rows
            && (forall s :: s in w'.history.sessions && s.token == t ==> s in w.history.sessions)
    decreases |requests|
  {
    if requests != [] {
      var q := requests[0];
      var w1 := Step(cfg, w, q.event, q.now, q.faults).0;
      StepLeavesGone(cfg, w, q.event, q.now, q.faults, t);
      StepKeepsAll(cfg, w, q.event, q.now, q.faults);
      hide Step, Sound, Accounted;
      SpentStaysSpent(cfg, w1, requests[1..], t);
    }
  }

  lemma {:induction false} StepLeavesGone(cfg: Config, w: World, e: Event, now: int, faults: set<Fault>, t: nat)
    requires Sound(cfg, w) && Accounted(w) && t < w.nextToken && t !in w.rows
    ensures var w' := Step(cfg, w, e, now, faults).0;
            && t < w'.nextToken && t !in w'.rows
            && forall s :: s in w'.history.sessions && s.token == t ==> s in w.history.sessions
  {
    if e.Begin? {
      hide BeginRow, Sound, Accounted;
    } else if Elsewhere(e) {
      assert TokenOk(w, t);
      ElsewhereTokens(cfg, w, e, now, faults, t);
      hide Step, Sound, Accounted, TokenOk;
    } else {
      assert TokenOk(w, e.token);
      if e.Choose? { ChooseTokens(cfg, w, e, now, faults); }
      else if e.Resend? { ResendTokens(cfg, w, e, now, faults); }
      else if e.PasskeyBegin? { PasskeyBeginTokens(cfg, w, e, now, faults); }
      else if e.token in w.rows { CompleteShape(cfg, w, e.token, faults); }
      hide CompleteStep, ChooseStep, ResendStep, Verify, Sound, Accounted, TokenOk;
    }
  }

  /**
   The budget: a live step has counted every wrong code (or rejected assertion) but those the store failed to record, and
   fewer than five; no step ever counts more than five; and once it has counted five it never signs in again.
   */
  lemma {:induction false} BudgetIsFive(cfg: Config, requests: seq<Request>, more: seq<Request>, t: nat)
    ensures var h := Run(cfg, EMPTY, requests).history;
            && Count(h.wrong, t) <= Count(h.lost, t) + 5
            && (t in Run(cfg, EMPTY, requests).rows ==> Count(h.wrong, t) < Count(h.lost, t) + 5)
            && (Count(h.wrong, t) == Count(h.lost, t) + 5 ==>
                  forall s :: s in Run(cfg, Run(cfg, EMPTY, requests), more).history.sessions && s.token == t ==> s in h.sessions)
  {
    EmptyIsFine(cfg);
    RunAccounts(cfg, EMPTY, requests);
    var w := Run(cfg, EMPTY, requests);
    assert TokenOk(w, t);
    if Count(w.history.wrong, t) == Count(w.history.lost, t) + 5 {
      SpentStaysSpent(cfg, w, more, t);
    }
  }

  // A request that changes how many attempts a live step has spent checked a code and found it wrong, or is a passkey
  // response that was not accepted.
  lemma {:induction false} OnlyWrongCodesSpend(cfg: Config, w: World, e: Event, now: int, faults: set<Fault>, t: nat)
    requires Sound(cfg, w) && t in w.rows
    ensures var w' := Step(cfg, w, e, now, faults).0;
            t in w'.rows && w'.rows[t].attempts != w.rows[t].attempts ==>
              && w'.rows[t] == w.rows[t].(attempts := w.rows[t].attempts + 1)
              && FailRow !in faults && Found(w, t, now, faults)
              && (|| (e.Enter? && e.token == t && e.typed.Some? && Verify(w, w.rows[t], e.typed.value, faults) == Wrong)
                  || (e.PasskeyFinish? && e.token == t && w.rows[t].via == Some(Passkey)))
  {
    assert w.nextToken !in w.rows;
    if Elsewhere(e) {
      if e.SetFactor? { SetFactorKeeps(w, e.factor); }
      hide Sound;
    } else if e.Enter? || e.PasskeyFinish? {
      if e.token in w.rows { CompleteShape(cfg, w, e.token, faults); }
      hide CompleteStep, Sound;
    } else {
      hide Sound, BeginRow, Prepare, UsableOf, FirstOf;
    }
  }

  // ---------- where the code falls short ----------

  predicate Enrolled(w: World, subject: nat) {
    exists id :: id in w.factors && w.factors[id].subject == subject && w.factors[id].confirmed
  }

  /**
   An account with an enrolled factor is meant to be challenged even when the flag is off. It is, exactly when its factors
   can be loaded and, without a mail sender, one of them is not an emailed code.
   */
  lemma {:induction false} EnrolledIsChallengedIff(cfg: Config, w: World, subject: nat, faults: set<Fault>)
    requires Sound(cfg, w) && Enrolled(w, subject)
    ensures SecondFactorRequired(cfg, w, false, subject, faults) <==>
              LoadFactors !in faults
              && (cfg.mailer || exists id :: id in w.factors && w.factors[id].subject == subject && w.factors[id].confirmed
                                             && w.factors[id].kind != Email)
  {
    var ids := UsableOf(cfg, w, subject);
    UsableOfOk(cfg, w, subject);
    if ids != [] {
      assert ids[0] in ids;
    } else {
      assert forall id :: id !in ids;
    }
  }

  // Without the blank method in the schema no row is ever blank ...
  lemma {:induction false} NoBlankRow(cfg: Config, requests: seq<Request>, t: nat)
    requires !cfg.blankAllowed
    ensures t in Run(cfg, EMPTY, requests).rows ==> Run(cfg, EMPTY, requests).rows[t].via.Some?
  {
    EmptyIsFine(cfg);
    EveryRowIsWellFormed(cfg, EMPTY, requests);
  }

  /**
   ... so the fallback to the picker strands the step it is meant to save. With the store, the random source and the
   cipher working, a sign-in gets a step if and only if the schema takes the blank method, or some usable factor is not
   an emailed code, or nothing is usable, or the mail goes out to an address.
   */
  lemma {:induction false} BeginStrandsWithoutTheBlankMethod(cfg: Config, w: World, e: Event, now: int, faults: set<Fault>)
    requires Sound(cfg, w) && e.Begin? && faults <= {SendMail}
    ensures var ids := UsableOf(cfg, w, e.subject);
            BeginStep(cfg, w, e, now, faults).1 == Page <==>
              || cfg.blankAllowed
              || ids == []
              || (exists id :: id in ids && id in w.factors && w.factors[id].kind != Email)
              || (faults == {} && exists id :: id in ids && id in w.factors && w.factors[id].hasAddress)
  {
    var ids := UsableOf(cfg, w, e.subject);
    UsableOfOk(cfg, w, e.subject);
    if ids != [] {
      PreferredIsUsable(cfg, w, e.subject);
      var id := Preferred(w.factors, ids);
      assert id in ids;
      if w.factors[id].kind == Email {
        forall other | other in ids && other in w.factors ensures other == id { assert SameSlot(w.factors, other, id); }
      }
    }
  }

  // While every wrong code can be recorded, one challenge checks at most five of them, and fewer while it lives ...
  lemma {:induction false} FiveWhileFailuresAreRecorded(cfg: Config, requests: seq<Request>, t: nat)
    requires forall k :: 0 <= k < |requests| ==> FailRow !in requests[k].faults
    ensures var w := Run(cfg, EMPTY, requests);
            Count(w.history.wrong, t) <= 5 && (t in w.rows ==> Count(w.history.wrong, t) < 5)
  {
    EmptyIsFine(cfg);
    NothingLost(cfg, EMPTY, requests);
    BudgetIsFive(cfg, requests, [], t);
  }

  lemma {:induction false} NothingLost(cfg: Config, w: World, requests: seq<Request>)
    requires Sound(cfg, w) && w.history.lost == map[]
    requires forall k :: 0 <= k < |requests| ==> FailRow !in requests[k].faults
    ensures Run(cfg, w, requests).history.lost == map[]
    decreases |requests|
  {
    if requests != [] {
      var q := requests[0];
      StepLosesNothing(cfg, w, q.event, q.now, q.faults);
      StepKeepsRows(cfg, w, q.event, q.now, q.faults);
      assert forall k :: 0 <= k < |requests[1..]| ==> requests[1..][k] == requests[k + 1];
      hide Step, Sound;
      NothingLost(cfg, Step(cfg, w, q.event, q.now, q.faults).0, requests[1..]);
    }
  }

  lemma {:induction false} StepLosesNothing(cfg: Config, w: World, e: Event, now: int, faults: set<Fault>)
    requires Sound(cfg, w) && FailRow !in faults
    ensures Step(cfg, w, e, now, faults).0.history.lost == w.history.lost
  {
    if Elsewhere(e) {
      if e.SetFactor? { SetFactorKeeps(w, e.factor); }
    } else if e.Enter? || e.PasskeyFinish? {
      if e.token in w.rows { CompleteShape(cfg, w, e.token, faults); }
      hide CompleteStep;
    }
  }

  // ... and otherwise no bound holds: a wrong code whose recording fails is checked and not counted.
  lemma {:induction false} LostFailuresAreFree(cfg: Config, w: World, t: nat, typed: Typed, now: int, n: nat)
    requires Sound(cfg, w) && Accounted(w) && Found(w, t, now, {}) && Verify(w, w.rows[t], typed, {FailRow}) == Wrong
    ensures var w' := Run(cfg, w, seq(n, _ => Request(Enter(t, Some(typed)), now, {FailRow})));
            w'.rows == w.rows && Count(w'.history.wrong, t) == Count(w.history.wrong, t) + n
    decreases n
  {
    if n > 0 {
      var rs := seq(n, _ => Request(Enter(t, Some(typed)), now, {FailRow}));
      var w1 := Step(cfg, w, rs[0].event, now, {FailRow}).0;
      StepKeepsAll(cfg, w, rs[0].event, now, {FailRow});
      assert w1.rows == w.rows && w1.factors == w.factors;
      assert rs[1..] == seq(n - 1, _ => Request(Enter(t, Some(typed)), now, {FailRow}));
      LostFailuresAreFree(cfg, w1, t, typed, now, n - 1);
    }
  }

  // ---------- runs on which it does ----------

  // A subject whose one factor is a confirmed email address.
  function OnlyEmail(subject: nat): Request {
    Request(SetFactor(Factor(subject, Email, None, true, true)), 0, {})
  }

  lemma {:induction false} OnlyEmailRun(cfg: Config, subject: nat)
    ensures var w := Run(cfg, EMPTY, [OnlyEmail(subject)]);
            && w == World(map[0 := Factor(subject, Email, None, true, true)], 1, map[], 0, EMPTY.history)
            && Sound(cfg, w) && UsableOf(cfg, w, subject) == if cfg.mailer then [0] else []
  {
    var q := OnlyEmail(subject);
    var w := World(map[0 := Factor(subject, Email, None, true, true)], 1, map[], 0, EMPTY.history);
    assert HeldFactor(EMPTY.factors, subject, Email).None?;
    assert Step(cfg, EMPTY, q.event, q.now, q.faults).0 == w;
    assert [q][1..] == [] && Run(cfg, w, []) == w;
    assert Listed(w.factors, 1, subject) == Listed(w.factors, 0, subject) + [0] == [0];
    assert [0][..0] == [];
    assert Usable(cfg, w.factors, [0]) == Usable(cfg, w.factors, []) + if UsableFactor(cfg, w.factors[0]) then [0] else [];
  }

  // Enrolled, confirmed, and let in without a second step because no mail can be sent.
  lemma {:induction false} AnEnrolledSubjectIsNotChallenged(subject: nat, webAuthn: bool, blank: bool)
    ensures var cfg := Config(false, webAuthn, blank);
            var w := Run(cfg, EMPTY, [OnlyEmail(subject)]);
            Enrolled(w, subject) && !SecondFactorRequired(cfg, w, false, subject, {})
  {
    var cfg := Config(false, webAuthn, blank);
    OnlyEmailRun(cfg, subject);
    hide Run, UsableOf;
    var w := Run(cfg, EMPTY, [OnlyEmail(subject)]);
    assert w.factors[0].subject == subject && w.factors[0].confirmed;
  }

  // The mail fails, the picker's blank method is refused by the table, and no step is made: nobody can sign in.
  lemma {:induction false} AMailOutageStrandsASignIn(subject: nat, secret: nat, code: nat, now: int)
    ensures var cfg := Config(true, true, false);
            var w := Run(cfg, EMPTY, [OnlyEmail(subject)]);
            BeginStep(cfg, w, Begin(subject, secret, code), now, {SendMail}) == (w, ServerError)
  {
    var cfg := Config(true, true, false);
    var w, e := Run(cfg, EMPTY, [OnlyEmail(subject)]), Begin(subject, secret, code);
    OnlyEmailRun(cfg, subject);
    BeginStrandsWithoutTheBlankMethod(cfg, w, e, now, {SendMail});
    hide Run, UsableOf, Sound, BeginRow;
    assert {SendMail} != {} by { assert SendMail in {SendMail}; }
    assert BeginStep(cfg, w, e, now, {SendMail}).1 != Page;
  }

  // A first sign-in, any number of wrong codes whose recording fails, and then the right one.
  function Guesses(subject: nat, secret: nat, n: nat): seq<Request> {
    [Request(Begin(subject, secret, 0), 0, {})] + seq(n, _ => Request(Enter(0, Some(Typed(0, {}))), 1, {FailRow}))
  }

  lemma {:induction false} AnyNumberOfGuesses(cfg: Config, subject: nat, secret: nat, n: nat)
    ensures var w := Run(cfg, EMPTY, Guesses(subject, secret, n));
            && Count(w.history.wrong, 0) == n
            && Step(cfg, w, Enter(0, Some(Typed(0, {secret}))), 1, {}).1 == SignedIn(subject)
  {
    var begin := Request(Begin(subject, secret, 0), 0, {});
    var w1 := Step(cfg, EMPTY, begin.event, 0, {}).0;
    var row := Row(subject, Some(Totp), None, Some(secret), None, false, 0, STEP_TTL);
    assert Listed(EMPTY.factors, 0, subject) == [];
    assert w1.rows == map[0 := row] && w1.history == EMPTY.history;
    EmptyIsFine(cfg);
    StepKeepsAll(cfg, EMPTY, begin.event, 0, {});
    LostFailuresAreFree(cfg, w1, 0, Typed(0, {}), 1, n);
    assert Guesses(subject, secret, n)[1..] == seq(n, _ => Request(Enter(0, Some(Typed(0, {}))), 1, {FailRow}));
    assert Run(cfg, EMPTY, Guesses(subject, secret, n)) == Run(cfg, w1, Guesses(subject, secret, n)[1..]);
    RightCodeSignsIn(cfg, Run(cfg, w1, Guesses(subject, secret, n)[1..]), row, secret);
    hide Run, Step, Sound, Accounted;
  }

  lemma {:induction false} RightCodeSignsIn(cfg: Config, w: World, row: Row, secret: nat)
    requires w.rows == map[0 := row] && row == Row(row.subject, Some(Totp), None, Some(secret), None, false, 0, STEP_TTL)
    ensures Step(cfg, w, Enter(0, Some(Typed(0, {secret}))), 1, {}).1 == SignedIn(row.subject)
  {
  }
}
