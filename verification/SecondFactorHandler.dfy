/**
 The sign-in step handlers over a mutable store: each leaves the store in the state, and gives the reply, that the state
 machine of SecondFactor gives for the same request.
 */
module SecondFactorHandler {
  import opened Wrappers
  import opened SecondFactor
  import Laws = SecondFactorLaws

  class StepStore {
    var factors: map<nat, Factor>
    var nextFactor: nat
    var rows: map<nat, Row>
    var nextToken: nat
    ghost var history: History
    const cfg: Config

    ghost function State(): World
      reads this
    {
      World(factors, nextFactor, rows, nextToken, history)
    }

    ghost predicate Valid()
      reads this
    {
      Sound(cfg, State())
    }

    constructor (cfg: Config)
      ensures this.cfg == cfg && State() == EMPTY && Valid()
    {
      this.cfg := cfg;
      factors, nextFactor, rows, nextToken := map[], 0, map[], 0;
      history := EMPTY.history;
      new;
      Laws.EmptyIsFine(cfg);
    }

    // The subject's confirmed factors, oldest first, without emailed codes when no mail can be sent.
    method UsableFactors(subject: nat) returns (usable: seq<nat>)
      ensures usable == UsableOf(cfg, State(), subject)
    {
      var listed: seq<nat> := [];
      for id := 0 to nextFactor
        invariant listed == Listed(factors, id, subject)
      {
        if id in factors && factors[id].subject == subject {
          listed := listed + [id];
        }
      }
      usable := [];
      for i := 0 to |listed|
        invariant usable == Usable(cfg, factors, listed[..i])
      {
        assert listed[..i + 1][..i] == listed[..i];
        var id := listed[i];
        if id in factors {
          if factors[id].confirmed && !(factors[id].kind == Email && !cfg.mailer) {
            usable := usable + [id];
          }
        }
      }
      assert listed[..|listed|] == listed;
    }

    // The first factor of the first kind, in order of preference, that has one.
    method PreferredFactor(ids: seq<nat>) returns (chosen: nat)
      requires ids != []
      ensures chosen == Preferred(factors, ids)
    {
      var kinds := [Totp, Passkey, Email];
      for k := 0 to |kinds|
        invariant forall j :: 0 <= j < k ==> FirstOf(factors, ids, kinds[j]).None?
      {
        var found := FindKind(ids, kinds[k]);
        if found.Some? {
          assert k > 0 ==> FirstOf(factors, ids, kinds[0]).None?;
          assert k > 1 ==> FirstOf(factors, ids, kinds[1]).None?;
          return found.value;
        }
      }
      assert FirstOf(factors, ids, kinds[0]).None? && FirstOf(factors, ids, kinds[1]).None? && FirstOf(factors, ids, kinds[2]).None?;
      chosen := ids[0];
    }

    method FindKind(ids: seq<nat>, kind: Kind) returns (found: Option<nat>)
      ensures found == FirstOf(factors, ids, kind)
    {
      for i := 0 to |ids|
        invariant FirstOf(factors, ids, kind) == FirstOf(factors, ids[i..], kind)
      {
        assert ids[i..][1..] == ids[i + 1..];
        if ids[i] in factors && factors[ids[i]].kind == kind {
          return Some(ids[i]);
        }
      }
      found := None;
    }

    // Readies a method for the step; the error result carries nothing, as its text is only logged.
    method PrepareChallenge(kind: Kind, factor: nat, code: nat, faults: set<Fault>) returns (result: Result<Option<nat>, ()>)
      ensures result == Prepare(cfg, factors, kind, factor, code, faults)
    {
      if kind != Email {
        return Success(None);
      }
      if LoadFactor in faults || factor !in factors || !factors[factor].hasAddress {
        return Failure(());
      }
      if Random in faults || !cfg.mailer || SendMail in faults {
        return Failure(());
      }
      result := Success(Some(code));
    }

    method BeginSecondFactor(subject: nat, secret: nat, code: nat, now: int, faults: set<Fault>) returns (reply: Reply)
      requires Valid()
      modifies this
      ensures Valid() && (State(), reply) == BeginStep(cfg, old(State()), Begin(subject, secret, code), now, faults)
    {
      Laws.BeginKeeps(cfg, State(), Begin(subject, secret, code), now, faults);
      if LoadFactors in faults {
        return ServerError;
      }
      var challenge := Row(subject, None, None, None, None, false, 0, now + STEP_TTL);
      var usable := UsableFactors(subject);
      if usable == [] {
        if Random in faults || Encrypt in faults {
          return ServerError;
        }
        challenge := challenge.(via := Some(Totp), secret := Some(secret));
      } else {
        Laws.PreferredIsUsable(cfg, State(), subject);
        var id := PreferredFactor(usable);
        challenge := challenge.(via := Some(factors[id].kind), factor := Some(id));
        var prepared := PrepareChallenge(factors[id].kind, id, code, faults);
        if prepared.Failure? {
          challenge := challenge.(via := None, factor := None, code := None);
        } else {
          challenge := challenge.(code := prepared.value);
        }
      }
      reply := CreateChallenge(challenge, faults);
    }

    method CreateChallenge(challenge: Row, faults: set<Fault>) returns (reply: Reply)
      modifies this
      ensures (State(), reply) ==
              if RandomToken in faults || CreateRow in faults || !Storable(cfg, challenge) then (old(State()), ServerError)
              else (old(State()).(rows := old(rows)[old(nextToken) := challenge], nextToken := old(nextToken) + 1,
                                  history := Mailed(old(history), old(nextToken), challenge.code, true)), Page)
    {
      if RandomToken in faults || CreateRow in faults || (challenge.via.None? && !cfg.blankAllowed) {
        return ServerError;
      }
      history := Mailed(history, nextToken, challenge.code, true);
      rows := rows[nextToken := challenge];
      nextToken := nextToken + 1;
      reply := Page;
    }

    method FailChallenge(token: nat, faults: set<Fault>) returns (reply: Reply)
      requires token in rows
      modifies this
      ensures (State(), reply) == FailStep(old(State()), token, faults)
    {
      history := history.(wrong := history.wrong[token := Count(history.wrong, token) + 1]);
      if FailRow in faults {
        history := history.(lost := history.lost[token := Count(history.lost, token) + 1]);
        return Spent;
      }
      var attempts := rows[token].attempts + 1;
      var remaining: int := MAX_ATTEMPTS - attempts;
      if remaining <= 0 {
        rows := rows - {token};
        return Spent;
      }
      rows := rows[token := rows[token].(attempts := attempts)];
      reply := if FailAck in faults then Spent else WrongCode(remaining);
    }

    // Consumes the step, confirms a fresh enrolment or touches the factor used, and signs the subject in.
    method CompleteSecondFactor(token: nat, faults: set<Fault>) returns (reply: Reply)
      requires Valid() && token in rows
      modifies this
      ensures Valid() && (State(), reply) == CompleteStep(old(State()), token, faults)
    {
      Laws.CompleteKeeps(cfg, State(), token, faults);
      var challenge := rows[token];
      if ConsumeRow in faults {
        return ServerError;
      }
      rows := rows - {token};
      if challenge.secret.Some? {
        if Upsert in faults {
          return ServerError;
        }
        EnrolAuthenticator(challenge.subject, challenge.secret.value);
      } else if challenge.factor.Some? {
        if Touch in faults {
          return ServerError;
        }
        if challenge.factor.value in factors {
          factors := factors[challenge.factor.value := factors[challenge.factor.value].(confirmed := true)];
        }
      }
      if IssueSession in faults {
        return ServerError;
      }
      history := history.(sessions := history.sessions + [Session(token, challenge.subject)]);
      reply := SignedIn(challenge.subject);
    }

    method EnrolAuthenticator(subject: nat, secret: nat)
      requires FactorsOk(factors, nextFactor)
      modifies this`factors, this`nextFactor
      ensures State() == EnrolTotp(old(State()), subject, secret)
    {
      for id := 0 to nextFactor
        invariant forall j :: 0 <= j < id && j in factors && factors[j].subject == subject ==> factors[j].kind != Totp
        invariant State() == old(State())
      {
        if id in factors && factors[id].subject == subject && factors[id].kind == Totp {
          assert SameSlot(factors, id, HeldFactor(factors, subject, Totp).value);
          factors := factors[id := factors[id].(secret := Some(secret), hasAddress := true, confirmed := true)];
          return;
        }
      }
      factors := factors[nextFactor := Factor(subject, Totp, Some(secret), true, true)];
      nextFactor := nextFactor + 1;
    }

    // POST of a live step with a code.
    method EnterCode(token: nat, typed: Option<Typed>, now: int, faults: set<Fault>) returns (reply: Reply)
      requires Valid()
      modifies this
      ensures Valid() && (State(), reply) == EnterStep(old(State()), Enter(token, typed), now, faults)
    {
      Laws.StepKeepsRows(cfg, State(), Enter(token, typed), now, faults);
      if LoadStep in faults || token !in rows || rows[token].expires <= now || rows[token].attempts >= MAX_ATTEMPTS {
        return NoSuchStep;
      }
      if typed.None? {
        return Page;
      }
      var verdict := VerifySecondFactor(rows[token], typed.value, faults);
      match verdict
      case Right => reply := CompleteSecondFactor(token, faults);
      case Wrong => reply := FailChallenge(token, faults);
      case NotChecked => reply := Unchecked;
    }

    // Checks one code against the step's method.
    method VerifySecondFactor(challenge: Row, typed: Typed, faults: set<Fault>) returns (verdict: Verdict)
      ensures verdict == Verify(State(), challenge, typed, faults)
    {
      match challenge.via
      case Some(Totp) =>
        var cipher := challenge.secret;
        if cipher.None? && challenge.factor.Some? {
          if LoadFactor in faults || challenge.factor.value !in factors {
            return NotChecked;
          }
          cipher := factors[challenge.factor.value].secret;
        }
        if cipher.None? || Decrypt in faults {
          return NotChecked;
        }
        verdict := if cipher.value in typed.validFor then Right else Wrong;
      case Some(Email) =>
        if challenge.code.None? {
          return NotChecked;
        }
        verdict := if challenge.code.value == typed.digits then Right else Wrong;
      case Some(Passkey) => verdict := NotChecked;
      case None => verdict := NotChecked;
    }

    // POST of a live step with action "method".
    method ChooseSecondFactor(token: nat, choice: Choice, code: nat, now: int, faults: set<Fault>) returns (reply: Reply)
      requires Valid()
      modifies this
      ensures Valid() && (State(), reply) == ChooseStep(cfg, old(State()), Choose(token, choice, code), now, faults)
    {
      Laws.ChooseKeeps(cfg, State(), Choose(token, choice, code), now, faults);
      if LoadStep in faults || token !in rows || rows[token].expires <= now || rows[token].attempts >= MAX_ATTEMPTS {
        return NoSuchStep;
      }
      var challenge := rows[token];
      if choice == Picker {
        if SwitchRow in faults || !cfg.blankAllowed {
          return ServerError;
        }
        rows := rows[token := Switched(challenge, None, None, None, false)];
        return Page;
      }
      if LoadFactors in faults {
        return ServerError;
      }
      var usable := UsableFactors(challenge.subject);
      var chosen := None;
      if choice.Of? {
        chosen := FindKind(usable, choice.kind);
      }
      if chosen.None? {
        return Unavailable;
      }
      var prepared := PrepareChallenge(choice.kind, chosen.value, code, faults);
      if prepared.Failure? {
        return Unavailable;
      }
      if SwitchRow in faults {
        history := Mailed(history, token, prepared.value, false);
        return ServerError;
      }
      history := Mailed(history, token, prepared.value, true);
      rows := rows[token := Switched(challenge, Some(choice.kind), chosen, prepared.value, false)];
      reply := Page;
    }

    // POST of a live step with action "resend".
    method ResendSecondFactorCode(token: nat, code: nat, now: int, faults: set<Fault>) returns (reply: Reply)
      requires Valid()
      modifies this
      ensures Valid() && (State(), reply) == ResendStep(cfg, old(State()), Resend(token, code), now, faults)
    {
      Laws.StepKeepsRows(cfg, State(), Resend(token, code), now, faults);
      if LoadStep in faults || token !in rows || rows[token].expires <= now || rows[token].attempts >= MAX_ATTEMPTS {
        return NoSuchStep;
      }
      var challenge := rows[token];
      if challenge.via != Some(Email) || challenge.factor.None? {
        return Unavailable;
      }
      if LoadFactor in faults || challenge.factor.value !in factors {
        return Unavailable;
      }
      if Random in faults || !cfg.mailer || SendMail in faults {
        return Unavailable;
      }
      if SetCode in faults {
        history := Mailed(history, token, Some(code), false);
        return Unavailable;
      }
      history := Mailed(history, token, Some(code), true);
      rows := rows[token := challenge.(code := Some(code))];
      reply := Page;
    }
  }
}
