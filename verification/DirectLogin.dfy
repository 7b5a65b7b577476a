/** The browser's login object: one generation counter decides which of the outstanding callbacks may still
    install a session. */
module DirectLogin {
  import opened Prelude

  type Handle = nat
  type Session = nat

  datatype Mfa = Sms | Totp
  datatype Failure = InvalidCredentials | Verify | Reset | InvalidCode | InvalidPassword | Unavailable | Unsupported
  datatype Result = GotSession(session: Session) | MustVerify | MustReset | NewPassword | NeedsCode

  /** What a promise came to; the first outcome stands. */
  datatype Promise = Pending | Resolved(result: Result) | Rejected(failure: Failure)

  /** One outstanding exchange with the provider: the generation it was begun in, and its promise. */
  datatype Exchange = Exchange(epoch: nat, refreshing: bool, promise: Promise)

  datatype Reply =
    | Success(session: Session, usable: bool)
    | Failed(failure: Failure)
    | PasswordRequired(known: bool)
    | CodeRequired(mfa: Mfa)
    | Thrown(failure: Failure)
    | Other

  datatype Event =
    | Login(handle: Handle, nameOk: bool)
    | Answer(handle: Handle)
    | Refresh(handle: Handle)
    | Callback(handle: Handle, reply: Reply)
    | SignOut

  /** A held session, with the exchange that brought it. */
  datatype Held = Held(session: Session, bringer: Handle)

  /** What a reply makes of the promise. Whatever the provider's library throws rejects it; a reply to an exchange of an
      earlier generation is never good news. */
  function Verdict(exchange: Exchange, generation: nat, reply: Reply): Promise {
    if reply.Thrown? then Rejected(reply.failure)
    else if reply.Other? && !exchange.refreshing then Rejected(Unsupported)
    else if exchange.epoch != generation then Rejected(Unavailable)
    else if exchange.refreshing && !reply.Success? then Rejected(Unavailable)
    else match reply
      case Success(session, usable) => if usable then Resolved(GotSession(session)) else Rejected(Unavailable)
      case Failed(failure) =>
        if failure == Verify then Resolved(MustVerify)
        else if failure == Reset then Resolved(MustReset)
        else Rejected(failure)
      case PasswordRequired(known) => if known then Resolved(NewPassword) else Rejected(Unsupported)
      case CodeRequired(_) => Resolved(NeedsCode)
      case Other => Rejected(Unavailable)
  }

  /** What a current answer means, exactly: a session for a usable success, a question for each kind of challenge, and
      everything else rejects; a refresh is given a session or rejects. */
  lemma VerdictExactly(exchange: Exchange, generation: nat, reply: Reply)
    ensures var p := Verdict(exchange, generation, reply);
            var current := exchange.epoch == generation;
            var asked := current && !exchange.refreshing;
            && (p.Resolved? || p.Rejected?)
            && (forall session :: p == Resolved(GotSession(session)) <==> current && reply == Success(session, true))
            && (p == Resolved(MustVerify) <==> asked && reply == Failed(Verify))
            && (p == Resolved(MustReset) <==> asked && reply == Failed(Reset))
            && (p == Resolved(NewPassword) <==> asked && reply == PasswordRequired(true))
            && (p == Resolved(NeedsCode) <==> asked && reply.CodeRequired?)
            && (asked && reply.Failed? && reply.failure !in {Verify, Reset} ==> p == Rejected(reply.failure))
            && (reply.Thrown? ==> p == Rejected(reply.failure))
            && (reply in {Other, PasswordRequired(false)} && asked ==> p == Rejected(Unsupported))
  {
  }

  class DirectCognito {
    var generation: nat
    var raw: Option<Held>
    var user: bool
    var mfa: Mfa
    var exchanges: map<Handle, Exchange>
    /** The generation in which each exchange was given a session. */
    ghost var granted: map<Handle, nat>

    constructor ()
      ensures Valid() && raw.None? && exchanges == map[] && generation == 0
    {
      generation, raw, user, mfa, exchanges, granted := 0, None, false, Sms, map[], map[];
    }

    /** The held session was brought by an exchange of the current generation, and every session ever returned
        was returned to its exchange while the generation that exchange began in was the current one. */
    ghost predicate Valid()
      reads this
    {
      && (raw.Some? ==> raw.value.bringer in exchanges && exchanges[raw.value.bringer].epoch == generation)
      && (forall h :: h in exchanges ==>
            exchanges[h].epoch <= generation && (exchanges[h].epoch == generation ==> user))
      && (forall h :: h in granted <==>
            h in exchanges && exchanges[h].promise.Resolved? && exchanges[h].promise.result.GotSession?)
      && (forall h :: h in granted ==> granted[h] == exchanges[h].epoch)
    }

    /** Exchanges begun before the present generation have had their last word. */
    twostate predicate OldExchangesRest()
      reads this
    {
      forall h :: h in old(exchanges) && old(exchanges)[h].epoch < old(generation) ==>
        && h in exchanges && exchanges[h].epoch == old(exchanges)[h].epoch
        && (exchanges[h].promise == old(exchanges)[h].promise
            || (exchanges[h].promise.Rejected? && old(exchanges)[h].promise.Pending?))
    }

    method Login(handle: Handle, nameOk: bool) returns (r: Option<Failure>)
      requires Valid() && handle !in exchanges
      modifies this
      ensures Valid() && OldExchangesRest() && generation == old(generation) + 1 && raw.None?
      ensures r == if nameOk then None else Some(InvalidCredentials)
      ensures exchanges == if nameOk then old(exchanges)[handle := Exchange(generation, false, Pending)]
              else old(exchanges)
    {
      generation := generation + 1;
      raw := None;
      if !nameOk { return Some(InvalidCredentials); }
      user := true;
      exchanges := exchanges[handle := Exchange(generation, false, Pending)];
      return None;
    }

    method Answer(handle: Handle) returns (r: Option<Failure>)
      requires Valid() && handle !in exchanges
      modifies this`exchanges
      ensures Valid() && OldExchangesRest()
      ensures exchanges == if user then old(exchanges)[handle := Exchange(generation, false, Pending)]
              else old(exchanges)
      ensures r.None? <==> user
    {
      if !user { return Some(Unavailable); }
      exchanges := exchanges[handle := Exchange(generation, false, Pending)];
      return None;
    }

    method Refresh(handle: Handle) returns (r: Option<Failure>)
      requires Valid() && handle !in exchanges
      modifies this`exchanges
      ensures Valid() && OldExchangesRest()
      ensures exchanges == if user && raw.Some? then old(exchanges)[handle := Exchange(generation, true, Pending)]
              else old(exchanges)
      ensures r.None? <==> user && raw.Some?
    {
      if !user || raw.None? { return Some(Unavailable); }
      exchanges := exchanges[handle := Exchange(generation, true, Pending)];
      return None;
    }

    method Settle(handle: Handle, promise: Promise)
      requires Valid() && handle in exchanges && !promise.Pending?
      requires promise.Resolved? && promise.result.GotSession? ==> exchanges[handle].epoch == generation
      modifies this`exchanges, this`granted
      ensures Valid()
      ensures granted == if old(exchanges)[handle].promise.Pending? && promise.Resolved? && promise.result.GotSession?
                         then old(granted)[handle := generation] else old(granted)
      ensures exchanges == if old(exchanges)[handle].promise.Pending?
                           then old(exchanges)[handle := old(exchanges)[handle].(promise := promise)]
                               else old(exchanges)
    {
      if exchanges[handle].promise.Pending? {
        if promise.Resolved? && promise.result.GotSession? { granted := granted[handle := generation]; }
        exchanges := exchanges[handle := exchanges[handle].(promise := promise)];
      }
    }

    /** A callback of an earlier generation can only reject its own promise. */
    method Callback(handle: Handle, reply: Reply)
      requires Valid() && handle in exchanges
      modifies this`raw, this`mfa, this`exchanges, this`granted
      ensures Valid() && OldExchangesRest()
      ensures exchanges.Keys == old(exchanges.Keys)
              && forall h :: h in exchanges && h != handle ==> exchanges[h] == old(exchanges)[h]
      ensures exchanges[handle].epoch == old(exchanges)[handle].epoch
      ensures old(exchanges)[handle].epoch != generation ==> raw == old(raw) && mfa == old(mfa)
      ensures mfa == if reply.CodeRequired? && old(exchanges)[handle].epoch == generation
                        && !old(exchanges)[handle].refreshing then reply.mfa else old(mfa)
      ensures raw == if reply.Success? && reply.usable && old(exchanges)[handle].epoch == generation
                     then Some(Held(reply.session, handle)) else old(raw)
      ensures exchanges[handle].promise ==
                if old(exchanges)[handle].promise.Pending? then Verdict(old(exchanges)[handle], generation, reply)
                else old(exchanges)[handle].promise
      ensures old(exchanges)[handle].promise.Pending? && old(exchanges)[handle].refreshing && !reply.Success? ==>
                exchanges[handle].promise.Rejected?
      ensures raw != old(raw) ==> reply.Success? && reply.usable && raw == Some(Held(reply.session, handle))
                                  && old(exchanges)[handle].epoch == generation
      ensures old(exchanges)[handle].promise.Pending? && old(exchanges)[handle].epoch == generation
              && reply.Success? ==>
                exchanges[handle].promise == if reply.usable then Resolved(GotSession(reply.session))
                else Rejected(Unavailable)
      ensures old(exchanges)[handle].promise.Pending? && old(exchanges)[handle].epoch != generation ==>
                exchanges[handle].promise.Rejected?
    {
      var exchange := exchanges[handle];
      if exchange.epoch == generation && reply.Success? && reply.usable { raw := Some(Held(reply.session, handle)); }
      if exchange.epoch == generation && !exchange.refreshing && reply.CodeRequired? { mfa := reply.mfa; }
      Settle(handle, Verdict(exchange, generation, reply));
    }

    method SignOut()
      requires Valid()
      modifies this
      ensures Valid() && OldExchangesRest() && generation == old(generation) + 1
      ensures raw.None? && !user && exchanges == old(exchanges)
    {
      generation := generation + 1;
      user := false;
      raw := None;
    }
  }

  /** Any interleaving of logins, answers, refreshes, sign-outs and callbacks, however late. */
  method Play(events: seq<Event>) returns (cognito: DirectCognito)
    ensures cognito.Valid()
    ensures cognito.raw.Some? ==> cognito.raw.value.bringer in cognito.exchanges
                                  && cognito.exchanges[cognito.raw.value.bringer].epoch == cognito.generation
    ensures forall h :: h in cognito.exchanges && cognito.exchanges[h].promise.Resolved?
                        && cognito.exchanges[h].promise.result.GotSession? ==>
              h in cognito.granted && cognito.granted[h] == cognito.exchanges[h].epoch
  {
    cognito := new DirectCognito();
    for k := 0 to |events|
      invariant cognito.Valid() && fresh(cognito)
    {
      match events[k] {
        case Login(handle, nameOk) => if handle !in cognito.exchanges { var _ := cognito.Login(handle, nameOk); }
        case Answer(handle) => if handle !in cognito.exchanges { var _ := cognito.Answer(handle); }
        case Refresh(handle) => if handle !in cognito.exchanges { var _ := cognito.Refresh(handle); }
        case Callback(handle, reply) => if handle in cognito.exchanges { cognito.Callback(handle, reply); }
        case SignOut => cognito.SignOut();
      }
    }
  }
}
