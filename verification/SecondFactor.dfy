/**
 The second step of a portal sign-in as a state machine over its stored rows: begin, switch method, resend, enter a code,
 use a passkey, and the changes to enrolled factors that happen meanwhile. One request is one step; every store call, the
 mailer and the random source may fail.

 Tokens are drawn fresh, so a token names one challenge row for ever. A bcrypt hash is modelled by the code it hashes, an
 encrypted secret by the secret, and a typed code by its digits and the secrets it is valid for at that moment.
 */
module SecondFactor {
  import opened Wrappers

  datatype Kind = Totp | Email | Passkey

  datatype Factor = Factor(subject: nat, kind: Kind, secret: Option<nat>, hasAddress: bool, confirmed: bool)

  // via None is the blank method of the picker.
  datatype Row = Row(subject: nat, via: Option<Kind>, factor: Option<nat>, secret: Option<nat>, code: Option<nat>,
                     ceremony: bool, attempts: nat, expires: int)

  // mailer: a mail sender is configured; webAuthn: passkeys are; blankAllowed: the schema accepts the blank method.
  datatype Config = Config(mailer: bool, webAuthn: bool, blankAllowed: bool)

  /**
   What happened, for stating properties only: wrong codes and rejected assertions per token, those the store failed to
   record, the last code mailed and the last one also stored for a step, the steps for which these differ, and sessions.
   */
  datatype History = History(wrong: map<nat, nat>, lost: map<nat, nat>, mailed: map<nat, nat>, stored: map<nat, nat>,
                             stale: set<nat>, sessions: seq<Session>)

  datatype Session = Session(token: nat, subject: nat)

  datatype World = World(factors: map<nat, Factor>, nextFactor: nat, rows: map<nat, Row>, nextToken: nat, history: History)

  const EMPTY := World(map[], 0, map[], 0, History(map[], map[], map[], map[], {}, []))

  const MAX_ATTEMPTS := 5
  const STEP_TTL := 600

  datatype Fault =
    | LoadStep | LoadFactors | LoadFactor | Random | RandomToken | Encrypt | Decrypt | SendMail
    | CreateRow | SwitchRow | SetCode | FailRow | FailAck | ConsumeRow | Upsert | Touch | IssueSession

  datatype Typed = Typed(digits: nat, validFor: set<nat>)

  // IssueSession also stands for a merchant account disabled meanwhile. Enter with None is a form sent without a code.

  datatype Event =
    | Begin(subject: nat, secret: nat, code: nat)
    | Enter(token: nat, typed: Option<Typed>)
    | Choose(token: nat, choice: Choice, code: nat)
    | Resend(token: nat, code: nat)
    | PasskeyBegin(token: nat)
    | PasskeyFinish(token: nat, accepted: bool)
    // Elsewhere: the security page and the operator console enrol, confirm and revoke factors and clear open steps.
    | SetFactor(factor: Factor)
    | AddPasskey(subject: nat)
    | ConfirmFactor(id: nat)
    | DeleteFactor(id: nat)
    | ClearSteps(subject: nat)

  // The submitted method: blank, a kind, or text that names no kind.
  datatype Choice = Picker | Of(kind: Kind) | Unknown

  datatype Reply =
    | Page | NoSuchStep | Unavailable | WrongCode(remaining: nat) | Spent | Unchecked | ServerError | SignedIn(subject: nat)

  // ---------- enrolled factors ----------

  // MFAFactors: the subject's factors, oldest first.
  function Listed(factors: map<nat, Factor>, upto: nat, subject: nat): seq<nat> {
    if upto == 0 then []
    else Listed(factors, upto - 1, subject)
         + if upto - 1 in factors && factors[upto - 1].subject == subject then [upto - 1] else []
  }

  predicate UsableFactor(cfg: Config, f: Factor) {
    f.confirmed && (f.kind == Email ==> cfg.mailer)
  }

  function Usable(cfg: Config, factors: map<nat, Factor>, ids: seq<nat>): seq<nat> {
    if ids == [] then []
    else Usable(cfg, factors, ids[..|ids| - 1])
         + if ids[|ids| - 1] in factors && UsableFactor(cfg, factors[ids[|ids| - 1]]) then [ids[|ids| - 1]] else []
  }

  function UsableOf(cfg: Config, w: World, subject: nat): seq<nat> {
    Usable(cfg, w.factors, Listed(w.factors, w.nextFactor, subject))
  }

  // The first id of a kind in the list.
  function FirstOf(factors: map<nat, Factor>, ids: seq<nat>, kind: Kind): Option<nat> {
    if ids == [] then None
    else if ids[0] in factors && factors[ids[0]].kind == kind then Some(ids[0])
    else FirstOf(factors, ids[1..], kind)
  }

  function Preferred(factors: map<nat, Factor>, ids: seq<nat>): nat
    requires ids != []
  {
    if FirstOf(factors, ids, Totp).Some? then FirstOf(factors, ids, Totp).value
    else if FirstOf(factors, ids, Passkey).Some? then FirstOf(factors, ids, Passkey).value
    else if FirstOf(factors, ids, Email).Some? then FirstOf(factors, ids, Email).value
    else ids[0]
  }

  // Whether a sign-in must pass a second step: armed for everyone, or a usable factor is found.
  predicate SecondFactorRequired(cfg: Config, w: World, armed: bool, subject: nat, faults: set<Fault>) {
    armed || (LoadFactors !in faults && UsableOf(cfg, w, subject) != [])
  }

  // ---------- readying a method ----------

  // prepareChallenge: the code mailed for an emailed step, None for the others.
  function Prepare(cfg: Config, factors: map<nat, Factor>, kind: Kind, factor: nat, code: nat, faults: set<Fault>)
    : Result<Option<nat>, ()>
  {
    if kind != Email then Success(None)
    else if LoadFactor in faults || factor !in factors || !factors[factor].hasAddress || Random in faults || !cfg.mailer
            || SendMail in faults then Failure(())
    else Success(Some(code))
  }

  // ---------- history ----------

  function Count(m: map<nat, nat>, token: nat): nat {
    if token in m then m[token] else 0
  }

  function Mailed(h: History, token: nat, code: Option<nat>, stored: bool): History {
    if code.None? then h
    else if stored then h.(mailed := h.mailed[token := code.value], stored := h.stored[token := code.value], stale := h.stale - {token})
    else h.(mailed := h.mailed[token := code.value], stale := h.stale + {token})
  }

  // ---------- requests ----------

  function BeginRow(cfg: Config, w: World, e: Event, now: int, faults: set<Fault>): Option<Row>
    requires e.Begin?
  {
    var ids := UsableOf(cfg, w, e.subject);
    if LoadFactors in faults then None
    else if ids == [] then
      if Random in faults || Encrypt in faults then None
      else Some(Row(e.subject, Some(Totp), None, Some(e.secret), None, false, 0, now + STEP_TTL))
    else
      var id := Preferred(w.factors, ids);
      if id !in w.factors then None
      else
        match Prepare(cfg, w.factors, w.factors[id].kind, id, e.code, faults)
        case Success(code) => Some(Row(e.subject, Some(w.factors[id].kind), Some(id), None, code, false, 0, now + STEP_TTL))
        case Failure(_) => Some(Row(e.subject, None, None, None, None, false, 0, now + STEP_TTL))
  }

  // The table accepts the three methods, and the blank one only if its constraint was widened.
  predicate Storable(cfg: Config, row: Row) {
    row.via.None? ==> cfg.blankAllowed
  }

  function BeginStep(cfg: Config, w: World, e: Event, now: int, faults: set<Fault>): (World, Reply)
    requires e.Begin?
  {
    match BeginRow(cfg, w, e, now, faults)
    case None => (w, ServerError)
    case Some(row) =>
      if RandomToken in faults || CreateRow in faults || !Storable(cfg, row) then (w, ServerError)
      else (w.(rows := w.rows[w.nextToken := row], nextToken := w.nextToken + 1,
               history := Mailed(w.history, w.nextToken, row.code, true)), Page)
  }

  predicate Found(w: World, token: nat, now: int, faults: set<Fault>) {
    LoadStep !in faults && token in w.rows && w.rows[token].expires > now && w.rows[token].attempts < MAX_ATTEMPTS
  }

  function StepSecret(w: World, row: Row): Option<nat> {
    if row.secret.Some? then row.secret
    else if row.factor.Some? && row.factor.value in w.factors then w.factors[row.factor.value].secret
    else None
  }

  datatype Verdict = Right | Wrong | NotChecked

  function Verify(w: World, row: Row, typed: Typed, faults: set<Fault>): Verdict {
    match row.via
    case Some(Totp) =>
      if (row.secret.None? && row.factor.Some? && LoadFactor in faults) || StepSecret(w, row).None? || Decrypt in faults
      then NotChecked
      else if StepSecret(w, row).value in typed.validFor then Right else Wrong
    case Some(Email) => if row.code.None? then NotChecked else if row.code.value == typed.digits then Right else Wrong
    case Some(Passkey) => NotChecked
    case None => NotChecked
  }

  // FailMFAChallenge with its caller. On an error the subject is told the step is spent: FailRow leaves the row as it was,
  // FailAck counts the failure and loses the acknowledgement.
  function FailStep(w: World, token: nat, faults: set<Fault>): (World, Reply)
    requires token in w.rows
  {
    var h := w.history.(wrong := w.history.wrong[token := Count(w.history.wrong, token) + 1]);
    if FailRow in faults then
      (w.(history := h.(lost := h.lost[token := Count(h.lost, token) + 1])), Spent)
    else
      var attempts := w.rows[token].attempts + 1;
      if attempts >= MAX_ATTEMPTS then (w.(rows := w.rows - {token}, history := h), Spent)
      else (w.(rows := w.rows[token := w.rows[token].(attempts := attempts)], history := h),
            if FailAck in faults then Spent else WrongCode(MAX_ATTEMPTS - attempts))
  }

  // The subject's one factor of a kind that allows one, if any.
  ghost function HeldFactor(factors: map<nat, Factor>, subject: nat, kind: Kind): (r: Option<nat>)
    ensures r.Some? ==> r.value in factors && factors[r.value].subject == subject && factors[r.value].kind == kind
    ensures r.None? ==> forall id :: id in factors && factors[id].subject == subject ==> factors[id].kind != kind
  {
    if id :| id in factors && factors[id].subject == subject && factors[id].kind == kind then Some(id) else None
  }

  // UpsertMFAFactor for a confirmed authenticator.
  ghost function EnrolTotp(w: World, subject: nat, secret: nat): World {
    match HeldFactor(w.factors, subject, Totp)
    case Some(id) => w.(factors := w.factors[id := w.factors[id].(secret := Some(secret), hasAddress := true, confirmed := true)])
    case None =>
      w.(factors := w.factors[w.nextFactor := Factor(subject, Totp, Some(secret), true, true)], nextFactor := w.nextFactor + 1)
  }

  // completeSecondFactor and finishSecondFactor.
  ghost function CompleteStep(w: World, token: nat, faults: set<Fault>): (World, Reply)
    requires token in w.rows
  {
    var row := w.rows[token];
    if ConsumeRow in faults then (w, ServerError)
    else
      var w1 := w.(rows := w.rows - {token});
      if row.secret.Some? && Upsert in faults then (w1, ServerError)
      else if row.secret.None? && row.factor.Some? && Touch in faults then (w1, ServerError)
      else
        var w2 :=
          if row.secret.Some? then EnrolTotp(w1, row.subject, row.secret.value)
          else if row.factor.Some? && row.factor.value in w1.factors then
            w1.(factors := w1.factors[row.factor.value := w1.factors[row.factor.value].(confirmed := true)])
          else w1;
        if IssueSession in faults then (w2, ServerError)
        else (w2.(history := w2.history.(sessions := w2.history.sessions + [Session(token, row.subject)])), SignedIn(row.subject))
  }

  ghost function EnterStep(w: World, e: Event, now: int, faults: set<Fault>): (World, Reply)
    requires e.Enter?
  {
    if !Found(w, e.token, now, faults) then (w, NoSuchStep)
    else if e.typed.None? then (w, Page)
    else
      match Verify(w, w.rows[e.token], e.typed.value, faults)
      case Right => CompleteStep(w, e.token, faults)
      case Wrong => FailStep(w, e.token, faults)
      case NotChecked => (w, Unchecked)
  }

  function Switched(row: Row, via: Option<Kind>, factor: Option<nat>, code: Option<nat>, ceremony: bool): Row {
    Row(row.subject, via, factor, None, code, ceremony, row.attempts, row.expires)
  }

  function ChooseStep(cfg: Config, w: World, e: Event, now: int, faults: set<Fault>): (World, Reply)
    requires e.Choose?
  {
    if !Found(w, e.token, now, faults) then (w, NoSuchStep)
    else
      var row := w.rows[e.token];
      if e.choice == Picker then
        if SwitchRow in faults || !cfg.blankAllowed then (w, ServerError)
        else (w.(rows := w.rows[e.token := Switched(row, None, None, None, false)]), Page)
      else if LoadFactors in faults then (w, ServerError)
      else
        var chosen := if e.choice.Of? then FirstOf(w.factors, UsableOf(cfg, w, row.subject), e.choice.kind) else None;
        if chosen.None? then (w, Unavailable)
        else
          match Prepare(cfg, w.factors, e.choice.kind, chosen.value, e.code, faults)
          case Failure(_) => (w, Unavailable)
          case Success(code) =>
            if SwitchRow in faults then (w.(history := Mailed(w.history, e.token, code, false)), ServerError)
            else (w.(rows := w.rows[e.token := Switched(row, Some(e.choice.kind), chosen, code, false)],
                     history := Mailed(w.history, e.token, code, true)), Page)
  }

  // issueStepCode and its caller; the factor's address is not asked for.
  function ResendStep(cfg: Config, w: World, e: Event, now: int, faults: set<Fault>): (World, Reply)
    requires e.Resend?
  {
    if !Found(w, e.token, now, faults) then (w, NoSuchStep)
    else
      var row := w.rows[e.token];
      if row.via != Some(Email) || row.factor.None? || LoadFactor in faults || row.factor.value !in w.factors
         || Random in faults || !cfg.mailer || SendMail in faults then (w, Unavailable)
      else if SetCode in faults then (w.(history := Mailed(w.history, e.token, Some(e.code), false)), Unavailable)
      else (w.(rows := w.rows[e.token := row.(code := Some(e.code))], history := Mailed(w.history, e.token, Some(e.code), true)), Page)
  }

  predicate HasPasskey(w: World, subject: nat) {
    exists id :: id in w.factors && w.factors[id].subject == subject && w.factors[id].kind == Passkey
  }

  ghost function PasskeyStep(cfg: Config, w: World, e: Event, now: int, faults: set<Fault>): (World, Reply)
    requires e.PasskeyBegin? || e.PasskeyFinish?
  {
    if !Found(w, e.token, now, faults) then (w, NoSuchStep)
    else
      var row := w.rows[e.token];
      if row.via != Some(Passkey) then (w, Unavailable)
      else if e.PasskeyBegin? then
        if !cfg.webAuthn || LoadFactors in faults || !HasPasskey(w, row.subject) then (w, Unavailable)
        else if SwitchRow in faults then (w, ServerError)
        else (w.(rows := w.rows[e.token := Switched(row, Some(Passkey), row.factor, None, true)]), Page)
      else if !row.ceremony then (w, Unavailable)
      // Any failure to verify counts as a rejected assertion, an outage of the store included.
      else if !cfg.webAuthn || LoadFactors in faults || LoadFactor in faults || !e.accepted then FailStep(w, e.token, faults)
      else CompleteStep(w, e.token, faults)
  }

  // ---------- changes made elsewhere ----------

  // One authenticator app, with its secret, and one email address per subject: an enrolment replaces, and never unconfirms, the one there is.
  ghost function SetFactorStep(w: World, f: Factor): World {
    if f.kind == Passkey || (f.kind == Totp && f.secret.None?) then w
    else
      match HeldFactor(w.factors, f.subject, f.kind)
      case Some(id) => w.(factors := w.factors[id := f.(confirmed := f.confirmed || w.factors[id].confirmed)])
      case None => w.(factors := w.factors[w.nextFactor := f], nextFactor := w.nextFactor + 1)
  }

  // The open steps of a deleted factor go with it.
  function DeleteFactorStep(w: World, id: nat): World {
    w.(factors := w.factors - {id}, rows := map t | t in w.rows && w.rows[t].factor != Some(id) :: w.rows[t])
  }

  ghost function Step(cfg: Config, w: World, e: Event, now: int, faults: set<Fault>): (World, Reply) {
    match e
    case Begin(_, _, _) => BeginStep(cfg, w, e, now, faults)
    case Enter(_, _) => EnterStep(w, e, now, faults)
    case Choose(_, _, _) => ChooseStep(cfg, w, e, now, faults)
    case Resend(_, _) => ResendStep(cfg, w, e, now, faults)
    case PasskeyBegin(_) => PasskeyStep(cfg, w, e, now, faults)
    case PasskeyFinish(_, _) => PasskeyStep(cfg, w, e, now, faults)
    case SetFactor(f) => (SetFactorStep(w, f), Page)
    case AddPasskey(s) =>
      (w.(factors := w.factors[w.nextFactor := Factor(s, Passkey, None, false, true)], nextFactor := w.nextFactor + 1), Page)
    case ConfirmFactor(id) =>
      (if id in w.factors then w.(factors := w.factors[id := w.factors[id].(confirmed := true)]) else w, Page)
    case DeleteFactor(id) => (DeleteFactorStep(w, id), Page)
    case ClearSteps(s) => (w.(rows := map t | t in w.rows && w.rows[t].subject != s :: w.rows[t]), Page)
  }

  // One request with the clock it reads and the faults it meets.
  datatype Request = Request(event: Event, now: int, faults: set<Fault>)

  ghost function Run(cfg: Config, w: World, requests: seq<Request>): World
    decreases |requests|
  {
    if requests == [] then w
    else Run(cfg, Step(cfg, w, requests[0].event, requests[0].now, requests[0].faults).0, requests[1..])
  }

  // ---------- well-formed rows ----------

  predicate FactorIs(factors: map<nat, Factor>, id: Option<nat>, subject: nat, kind: Kind) {
    id.Some? && id.value in factors && factors[id.value].subject == subject && factors[id.value].kind == kind
  }

  predicate RowOk(cfg: Config, factors: map<nat, Factor>, row: Row) {
    match row.via
    case None => cfg.blankAllowed && row.factor.None? && row.secret.None? && row.code.None? && !row.ceremony
    case Some(Totp) => row.code.None? && !row.ceremony
                       && if row.secret.Some? then row.factor.None? else FactorIs(factors, row.factor, row.subject, Totp)
    case Some(Email) => FactorIs(factors, row.factor, row.subject, Email) && row.secret.None? && row.code.Some? && !row.ceremony
    case Some(Passkey) => FactorIs(factors, row.factor, row.subject, Passkey) && row.secret.None? && row.code.None?
  }

  // The two unique indexes: one authenticator and one email address per subject.
  predicate SameSlot(factors: map<nat, Factor>, i: nat, j: nat) {
    && i in factors && j in factors
    && factors[i].subject == factors[j].subject
    && factors[i].kind == factors[j].kind != Passkey
  }

  ghost predicate FactorsOk(factors: map<nat, Factor>, next: nat) {
    && (forall id :: id in factors ==> id < next)
    && (forall id :: id in factors && factors[id].kind == Totp ==> factors[id].secret.Some?)
    && (forall i, j :: SameSlot(factors, i, j) ==> i == j)
  }

  ghost predicate Sound(cfg: Config, w: World) {
    && FactorsOk(w.factors, w.nextFactor)
    && (forall t :: t in w.rows ==> t < w.nextToken && RowOk(cfg, w.factors, w.rows[t]))
  }
}
