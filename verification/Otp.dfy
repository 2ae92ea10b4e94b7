/** One-time codes: send and attempt limits, and the pause after too many wrong codes anywhere. */
module Otp {
  import opened JsMath
  import opened RateLimit

  const OTP_TTL_S := 300
  const MAX_SENDS := 5
  const SEND_WINDOW_S := 900
  const MAX_ATTEMPTS := 5
  const SENT_WINDOW_S := 600
  const GLOBAL_MAX_FAILURES := 50
  const GLOBAL_WINDOW_S := 600
  const GLOBAL_LOCK_S := 600

  datatype Code = Code(text: string, until: int)

  /** The keys of one phone. */
  datatype Phone = Phone(sends: Option<Counter>, code: Option<Code>, sentUntil: int, attempts: Option<Counter>)

  /** All keys: each phone's, the failure count of all phones, and until when every verify is paused. */
  datatype Otps = Otps(phones: map<string, Phone>, failures: Option<Counter>, lockUntil: int)

  /** `devCode` matters in dev mode only: "" takes anything but 000000. */
  datatype Mode = Mode(isDev: bool, devCode: string)

  datatype Answer = Sent | SendLimit(retryAfterS: int) | Paused(retryAfterS: int) | RequestFirst | TooManyAttempts(retryAfterS: int) | Right | Wrong

  const NoPhone: Phone := Phone(None, None, 0, None)

  function Of(s: Otps, phone: string): Phone { if phone in s.phones then s.phones[phone] else NoPhone }

  function CodeAt(p: Phone, now: int): Option<string> {
    if p.code.Some? && now < p.code.value.until then Some(p.code.value.text) else None
  }

  function IsRight(mode: Mode, p: Phone, guess: string, now: int): bool {
    if mode.isDev then (if mode.devCode != "" then guess == mode.devCode else guess != "000000")
    else CodeAt(p, now) == Some(guess)
  }

  function Send(s: Otps, phone: string, code: string, now: int): (Otps, Answer) {
    var p := Of(s, phone);
    var sends := Hit(p.sends, SEND_WINDOW_S, now);
    if sends.hits > MAX_SENDS then (s.(phones := s.phones[phone := p.(sends := Some(sends))]), SendLimit(sends.until - now))
    else (s.(phones := s.phones[phone := Phone(Some(sends), Some(Code(code, now + OTP_TTL_S)), now + SENT_WINDOW_S, None)]), Sent)
  }

  function Verify(mode: Mode, s: Otps, phone: string, guess: string, now: int): (Otps, Answer) {
    var p := Of(s, phone);
    if now < s.lockUntil then (s, Paused(s.lockUntil - now))
    else if !(now < p.sentUntil) then (s, RequestFirst)
    else
      var attempts := Hit(p.attempts, OTP_TTL_S, now);
      var counted := s.(phones := s.phones[phone := p.(attempts := Some(attempts))]);
      if attempts.hits > MAX_ATTEMPTS then (counted, TooManyAttempts(attempts.until - now))
      else if IsRight(mode, p, guess, now) then (s.(phones := s.phones[phone := p.(code := None, attempts := None, sentUntil := 0)]), Right)
      else
        var failures := Hit(s.failures, GLOBAL_WINDOW_S, now);
        (counted.(failures := Some(failures),
                  lockUntil := if failures.hits > GLOBAL_MAX_FAILURES && !(now < s.lockUntil) then now + GLOBAL_LOCK_S else s.lockUntil), Wrong)
  }

  datatype Event = SendTo(phone: string, code: string, at: int) | VerifyAs(phone: string, guess: string, at: int)

  function Step(mode: Mode, s: Otps, e: Event): (Otps, Answer) {
    match e
    case SendTo(phone, code, at) => Send(s, phone, code, at)
    case VerifyAs(phone, guess, at) => Verify(mode, s, phone, guess, at)
  }

  function Exec(mode: Mode, s: Otps, es: seq<Event>): Otps
    decreases |es|
  {
    if es == [] then s else Exec(mode, Step(mode, s, es[0]).0, es[1..])
  }

  /** Events no earlier than `now`, in order. */
  ghost predicate Timed(es: seq<Event>, now: int) {
    && (forall i | 0 <= i < |es| :: now <= es[i].at)
    && (forall i, j | 0 <= i < j < |es| :: es[i].at <= es[j].at)
  }

  const Init: Otps := Otps(map[], None, 0)

  class OtpService {
    const mode: Mode
    var phones: map<string, Phone>
    var failures: Option<Counter>
    var lockUntil: int

    function State(): Otps
      reads this
    {
      Otps(phones, failures, lockUntil)
    }

    constructor (mode: Mode)
      ensures this.mode == mode && State() == Init
    {
      this.mode := mode;
      phones, failures, lockUntil := map[], None, 0;
    }

    method SendCode(phone: string, code: string, now: int) returns (a: Answer)
      modifies this`phones
      ensures (State(), a) == Send(old(State()), phone, code, now)
    {
      var p := if phone in phones then phones[phone] else NoPhone;
      if p.sends.Some? && p.sends.value.until <= now { p := p.(sends := None); }
      var sends := if p.sends.Some? then p.sends.value.hits + 1 else 1;
      var until := if sends == 1 then now + SEND_WINDOW_S else p.sends.value.until;
      if sends > MAX_SENDS {
        phones := phones[phone := (if phone in phones then phones[phone] else NoPhone).(sends := Some(Counter(sends, until)))];
        return SendLimit(until - now);
      }
      phones := phones[phone := Phone(Some(Counter(sends, until)), Some(Code(code, now + OTP_TTL_S)), now + SENT_WINDOW_S, None)];
      return Sent;
    }

    method VerifyCode(phone: string, guess: string, now: int) returns (a: Answer)
      modifies this
      ensures (State(), a) == Verify(mode, old(State()), phone, guess, now)
    {
      if lockUntil - now > 0 { return Paused(lockUntil - now); }
      var p := if phone in phones then phones[phone] else NoPhone;
      if p.sentUntil <= now { return RequestFirst; }
      var live := p.attempts.Some? && now < p.attempts.value.until;
      var attempts := if live then p.attempts.value.hits + 1 else 1;
      var until := if attempts == 1 then now + OTP_TTL_S else p.attempts.value.until;
      p := p.(attempts := Some(Counter(attempts, until)));
      phones := phones[phone := p];
      if attempts > MAX_ATTEMPTS { return TooManyAttempts(until - now); }
      var expected := if p.code.Some? && now < p.code.value.until then Some(p.code.value.text) else None;
      var right := if mode.isDev then (if mode.devCode != "" then guess == mode.devCode else guess != "000000")
                   else expected.Some? && expected.value == guess;
      if right {
        ghost var before := old(phones);
        phones := phones[phone := p.(code := None, attempts := None, sentUntil := 0)];
        assert phones == before[phone := p.(code := None, attempts := None, sentUntil := 0)];
        return Right;
      }
      CountFailure(now);
      return Wrong;
    }

    method CountFailure(now: int)
      requires !(now < lockUntil)
      modifies this`failures, this`lockUntil
      ensures failures == Some(Hit(old(failures), GLOBAL_WINDOW_S, now))
      ensures lockUntil == if failures.value.hits > GLOBAL_MAX_FAILURES then now + GLOBAL_LOCK_S else old(lockUntil)
    {
      var live := failures.Some? && now < failures.value.until;
      failures := Some(if live then Counter(failures.value.hits + 1, failures.value.until) else Counter(1, now + GLOBAL_WINDOW_S));
      if failures.value.hits <= GLOBAL_MAX_FAILURES { return; }
      if !(now < lockUntil) { lockUntil := now + GLOBAL_LOCK_S; }
    }
  }

  // ----------------------------------------------------------------------------------- what each answer means, in numbers

  /** The hits of a counter that has not expired. */
  function LiveHits(c: Option<Counter>, now: int): nat { if c.Some? && now < c.value.until then c.value.hits else 0 }

  /** Which guess passes: the code sent less than 5 minutes ago; in dev mode the set code, or anything but 000000. */
  predicate Passes(mode: Mode, p: Phone, guess: string, now: int) {
    if !mode.isDev then p.code.Some? && now < p.code.value.until && p.code.value.text == guess
    else if mode.devCode != "" then guess == mode.devCode
    else guess != "000000"
  }

  /** Every answer of a verify, exactly when it is given. */
  lemma VerifyAnswers(mode: Mode, s: Otps, phone: string, guess: string, now: int)
    ensures var p, a := Of(s, phone), Verify(mode, s, phone, guess, now).1;
            var paused, sent, tries := now < s.lockUntil, now < p.sentUntil, LiveHits(p.attempts, now);
            && (a.Paused? <==> paused) && (a.Paused? ==> a.retryAfterS == s.lockUntil - now)
            && (a == RequestFirst <==> !paused && !sent)
            && (a.TooManyAttempts? <==> !paused && sent && tries >= 5)
            && (a == Right <==> !paused && sent && tries < 5 && Passes(mode, p, guess, now))
            && (a == Wrong <==> !paused && sent && tries < 5 && !Passes(mode, p, guess, now))
  {
  }

  /** A send is refused from the sixth in 15 minutes on; else its code is live for 5 minutes, with no try counted yet. */
  lemma SendStores(s: Otps, phone: string, code: string, now: int)
    ensures var (s', a) := Send(s, phone, code, now); var p, p' := Of(s, phone), Of(s', phone);
            && (a.SendLimit? <==> LiveHits(p.sends, now) >= 5) && (a == Sent <==> LiveHits(p.sends, now) < 5)
            && p'.sends == Some(if LiveHits(p.sends, now) > 0 then Counter(p.sends.value.hits + 1, p.sends.value.until) else Counter(1, now + 900))
            && (a == Sent ==> p'.code == Some(Code(code, now + 300)) && p'.sentUntil == now + 600 && p'.attempts == None)
            && (a.SendLimit? ==> p' == p.(sends := p'.sends) && a.retryAfterS == p.sends.value.until - now)
            && (forall x | x != phone :: Of(s', x) == Of(s, x)) && s'.failures == s.failures && s'.lockUntil == s.lockUntil
  {
  }

  /** A verify leaves other phones alone; a wrong code counts everywhere, and the 51st in 10 minutes pauses all for 10. */
  lemma WrongCodesCount(mode: Mode, s: Otps, phone: string, guess: string, now: int)
    ensures var (s', a) := Verify(mode, s, phone, guess, now); var before := LiveHits(s.failures, now);
            && (forall x | x != phone :: Of(s', x) == Of(s, x))
            && (a != Wrong ==> s'.failures == s.failures && s'.lockUntil == s.lockUntil)
            && (a == Wrong ==>
                 && s'.failures == Some(if before > 0 then Counter(before + 1, s.failures.value.until) else Counter(1, now + 600))
                 && s'.lockUntil == if before >= 50 then now + 600 else s.lockUntil)
  {
  }

  /** While a code is out: `wrong` tries have been made at it, and it is still there. */
  ghost predicate CodeOut(p: Phone, code: string, sentAt: int, wrong: nat, now: int) {
    && p.code == Some(Code(code, sentAt + 300)) && p.sentUntil == sentAt + 600
    && (p.attempts.Some? ==> p.attempts.value.hits <= wrong || p.attempts.value.until <= now)
  }

  /** Tries for a phone over a run. */
  function Tries(es: seq<Event>, phone: string): nat {
    if es == [] then 0 else Tries(es[..|es| - 1], phone) + if es[|es| - 1].VerifyAs? && es[|es| - 1].phone == phone then 1 else 0
  }

  /** No other send to the phone, and no try with this code. */
  ghost predicate OnlyWrongTries(es: seq<Event>, phone: string, code: string) {
    forall i | 0 <= i < |es| && es[i].phone == phone :: es[i].VerifyAs? && es[i].guess != code
  }

  lemma WrongTryKeepsCode(mode: Mode, s: Otps, e: Event, phone: string, code: string, sentAt: int, wrong: nat, now: int)
    requires !mode.isDev && now <= e.at && CodeOut(Of(s, phone), code, sentAt, wrong, now)
    requires e.phone == phone ==> e.VerifyAs? && e.guess != code
    ensures CodeOut(Of(Step(mode, s, e).0, phone), code, sentAt, wrong + (if e.phone == phone then 1 else 0), e.at)
  {
  }

  function LastTime(es: seq<Event>, now: int): int { if es == [] then now else es[|es| - 1].at }

  lemma {:induction false} ExecSnoc(mode: Mode, s: Otps, es: seq<Event>, e: Event)
    ensures Exec(mode, s, es + [e]) == Step(mode, Exec(mode, s, es), e).0
    decreases |es|
  {
    if es == [] {
      assert [e][1..] == [];
    } else {
      assert (es + [e])[1..] == es[1..] + [e];
      ExecSnoc(mode, Step(mode, s, es[0]).0, es[1..], e);
    }
  }

  lemma {:induction false} CodeStaysOut(mode: Mode, s: Otps, es: seq<Event>, phone: string, code: string, sentAt: int)
    requires !mode.isDev && Timed(es, sentAt) && OnlyWrongTries(es, phone, code) && CodeOut(Of(s, phone), code, sentAt, 0, sentAt)
    ensures CodeOut(Of(Exec(mode, s, es), phone), code, sentAt, Tries(es, phone), LastTime(es, sentAt))
    decreases |es|
  {
    if es != [] {
      var init, e := es[..|es| - 1], es[|es| - 1];
      CodeStaysOut(mode, s, init, phone, code, sentAt);
      assert es == init + [e];
      ExecSnoc(mode, s, init, e);
      WrongTryKeepsCode(mode, Exec(mode, s, init), e, phone, code, sentAt, Tries(init, phone), LastTime(init, sentAt));
    }
  }

  /**
   * Outside dev mode a code that was sent is accepted: at any time in the 5 minutes after, whatever other phones do,
   * if at most 4 wrong tries and no other send lie between, and sign-in is not paused then. In the 10 minutes after
   * the send, and not later, a verify is tried at all.
   */
  lemma SentCodeIsAccepted(mode: Mode, s: Otps, phone: string, code: string, t: int, es: seq<Event>, now: int)
    requires !mode.isDev && Send(s, phone, code, t).1 == Sent
    requires Timed(es, t) && LastTime(es, t) <= now && OnlyWrongTries(es, phone, code)
    requires Exec(mode, Send(s, phone, code, t).0, es).lockUntil <= now
    ensures var s' := Exec(mode, Send(s, phone, code, t).0, es);
            && (now < t + 300 && Tries(es, phone) <= 4 ==> Verify(mode, s', phone, code, now).1 == Right)
            && (now >= t + 300 ==> Verify(mode, s', phone, code, now).1 != Right)
            && (forall guess :: Verify(mode, s', phone, guess, now).1 == RequestFirst <==> now >= t + 600)
  {
    SendStores(s, phone, code, t);
    var s1 := Send(s, phone, code, t).0;
    CodeStaysOut(mode, s1, es, phone, code, t);
    VerifyAnswers(mode, Exec(mode, s1, es), phone, code, now);
    forall guess ensures Verify(mode, Exec(mode, s1, es), phone, guess, now).1 == RequestFirst <==> now >= t + 600 {
      VerifyAnswers(mode, Exec(mode, s1, es), phone, guess, now);
    }
  }

  // -------------------------------------------------------------------------------------- guesses at one code

  /** The code of `phone` is compared with a guess: the call gets past every limit while the code is live. */
  predicate Compares(s: Otps, e: Event, phone: string) {
    && e.VerifyAs? && e.phone == phone && !(e.at < s.lockUntil) && e.at < Of(s, phone).sentUntil
    && Hit(Of(s, phone).attempts, OTP_TTL_S, e.at).hits <= MAX_ATTEMPTS && CodeAt(Of(s, phone), e.at).Some?
  }

  predicate Accepts(mode: Mode, s: Otps, e: Event, phone: string) {
    e.VerifyAs? && e.phone == phone && Step(mode, s, e).1 == Right
  }

  predicate Sends(mode: Mode, s: Otps, e: Event, phone: string) {
    e.SendTo? && e.phone == phone && Step(mode, s, e).1 == Sent
  }

  /** Codes sent to a phone over a run; comparisons and acceptances since the last one, and in all. */
  datatype Tally = Tally(sent: nat, guesses: nat, accepted: nat, allGuesses: nat, allAccepted: nat)

  function Count(mode: Mode, s: Otps, e: Event, phone: string, t: Tally): Tally {
    if Sends(mode, s, e, phone) then t.(sent := t.sent + 1, guesses := 0, accepted := 0)
    else
      var g, a := if Compares(s, e, phone) then 1 else 0, if Accepts(mode, s, e, phone) then 1 else 0;
      Tally(t.sent, t.guesses + g, t.accepted + a, t.allGuesses + g, t.allAccepted + a)
  }

  function CountAll(mode: Mode, s: Otps, es: seq<Event>, phone: string, t: Tally): Tally
    decreases |es|
  {
    if es == [] then t else CountAll(mode, Step(mode, s, es[0]).0, es[1..], phone, Count(mode, s, es[0], phone, t))
  }

  /** While a code is live its attempts counter outlives it and has seen every guess at it. */
  ghost predicate Guarded(p: Phone, t: Tally, now: int) {
    && t.guesses <= MAX_ATTEMPTS && t.accepted <= 1
    && t.allGuesses <= MAX_ATTEMPTS * (if t.sent == 0 then 0 else t.sent - 1) + t.guesses
    && t.allAccepted <= (if t.sent == 0 then 0 else t.sent - 1) + t.accepted
    && (p.code.Some? ==> p.code.value.until <= now + OTP_TTL_S)
    && (t.sent == 0 ==> p.code.None? && t.guesses == 0 && t.accepted == 0)
    && (p.code.Some? && now < p.code.value.until ==>
          && t.accepted == 0
          && match p.attempts
             case None => t.guesses == 0
             case Some(c) => c.until >= p.code.value.until && t.guesses <= c.hits)
  }

  lemma StepKeepsGuard(mode: Mode, s: Otps, e: Event, phone: string, t: Tally, now: int)
    requires !mode.isDev && now <= e.at && Guarded(Of(s, phone), t, now)
    ensures Guarded(Of(Step(mode, s, e).0, phone), Count(mode, s, e, phone, t), e.at)
  {
  }

  /**
   * Outside dev mode, over every timed run: each code sent to a phone is compared with at most 5 guesses and accepted
   * at most once; so the phone's codes together meet at most 5 guesses and one acceptance each.
   */
  lemma {:induction false} GuessesBounded(mode: Mode, s: Otps, es: seq<Event>, phone: string, t: Tally, now: int)
    requires !mode.isDev && Timed(es, now) && Guarded(Of(s, phone), t, now)
    ensures var r := CountAll(mode, s, es, phone, t);
            && r.guesses <= 5 && r.accepted <= 1 && r.allGuesses <= 5 * r.sent && r.allAccepted <= r.sent
    decreases |es|
  {
    if es != [] {
      StepKeepsGuard(mode, s, es[0], phone, t, now);
      GuessesBounded(mode, Step(mode, s, es[0]).0, es[1..], phone, Count(mode, s, es[0], phone, t), es[0].at);
    }
  }

  /** The same from the empty state, for every phone. */
  lemma CodesAreGuarded(mode: Mode, es: seq<Event>, phone: string, now: int)
    requires !mode.isDev && Timed(es, now)
    ensures var r := CountAll(mode, Init, es, phone, Tally(0, 0, 0, 0, 0));
            && r.guesses <= 5 && r.accepted <= 1 && r.allGuesses <= 5 * r.sent && r.allAccepted <= r.sent
  {
    GuessesBounded(mode, Init, es, phone, Tally(0, 0, 0, 0, 0), now);
  }

  /** What is accepted outside dev mode is the live code, and no code is live afterwards. */
  lemma AcceptedIsTheLiveCode(mode: Mode, s: Otps, e: Event, phone: string)
    requires Accepts(mode, s, e, phone)
    ensures !mode.isDev ==> Compares(s, e, phone) && CodeAt(Of(s, phone), e.at) == Some(e.guess)
    ensures CodeAt(Of(Step(mode, s, e).0, phone), e.at) == None
  {
  }

  // ---------------------------------------------------------------------------------------------- codes per quarter hour

  function SendTimes(es: seq<Event>, phone: string): seq<int> {
    if es == [] then []
    else (if es[0].SendTo? && es[0].phone == phone then [es[0].at] else []) + SendTimes(es[1..], phone)
  }

  /** Codes sent to a phone in [a, a + 15 min). */
  function SentIn(mode: Mode, s: Otps, es: seq<Event>, phone: string, a: int): nat
    decreases |es|
  {
    if es == [] then 0
    else (if Sends(mode, s, es[0], phone) && a <= es[0].at < a + 900 then 1 else 0) + SentIn(mode, Step(mode, s, es[0]).0, es[1..], phone, a)
  }

  lemma {:induction false} SendTimesInOrder(es: seq<Event>, phone: string, now: int)
    requires Timed(es, now)
    ensures InOrder(SendTimes(es, phone)) && forall i | 0 <= i < |SendTimes(es, phone)| :: SendTimes(es, phone)[i] >= now
  {
    if es != [] {
      assert Timed(es[1..], es[0].at);
      SendTimesInOrder(es[1..], phone, es[0].at);
    }
  }

  lemma {:induction false} SendsAreCounterCalls(mode: Mode, s: Otps, es: seq<Event>, phone: string, a: int)
    ensures SentIn(mode, s, es, phone, a) == PassesIn(Of(s, phone).sends, SendTimes(es, phone), MAX_SENDS, SEND_WINDOW_S, a)
    decreases |es|
  {
    if es != [] {
      var s' := Step(mode, s, es[0]).0;
      SendsAreCounterCalls(mode, s', es[1..], phone, a);
      if es[0].SendTo? && es[0].phone == phone {
        var times := SendTimes(es, phone);
        assert times[0] == es[0].at && times[1..] == SendTimes(es[1..], phone);
      } else {
        assert Of(s', phone).sends == Of(s, phone).sends;
        assert SendTimes(es, phone) == SendTimes(es[1..], phone);
      }
    }
  }

  /** No phone gets more than 9 codes in any 15 minutes, whatever else happens. */
  lemma CodesPerWindow(mode: Mode, es: seq<Event>, phone: string, a: int, now: int)
    requires Timed(es, now)
    ensures SentIn(mode, Init, es, phone, a) <= 9
  {
    SendsAreCounterCalls(mode, Init, es, phone, a);
    SendTimesInOrder(es, phone, now);
    AtMostTwiceLessOne(None, SendTimes(es, phone), MAX_SENDS, SEND_WINDOW_S, a);
  }

  // ------------------------------------------------------------------------------------------ the pause for all

  /** A running pause outlasts the failure count that caused it. */
  ghost predicate PauseOk(s: Otps, now: int) {
    && (s.failures.Some? ==> s.failures.value.until <= now + GLOBAL_WINDOW_S)
    && (now < s.lockUntil && s.failures.Some? ==> s.failures.value.until <= s.lockUntil)
    && (s.failures.Some? && now < s.failures.value.until && s.failures.value.hits > GLOBAL_MAX_FAILURES ==> now < s.lockUntil)
  }

  lemma {:induction false} PauseOutlastsFailures(mode: Mode, s: Otps, es: seq<Event>, now: int)
    requires Timed(es, now) && PauseOk(s, now)
    ensures PauseOk(Exec(mode, s, es), if es == [] then now else es[|es| - 1].at)
    decreases |es|
  {
    if es != [] {
      assert PauseOk(Step(mode, s, es[0]).0, es[0].at);
      PauseOutlastsFailures(mode, Step(mode, s, es[0]).0, es[1..], es[0].at);
    }
  }

  /** The first wrong code after a pause counts as the first again, so it takes 51 to pause anew. */
  lemma CountRestartsAfterPause(mode: Mode, s: Otps, e: Event, now: int)
    requires PauseOk(s, now) && now < s.lockUntil <= e.at
    ensures Step(mode, s, e).1 == Wrong ==> Step(mode, s, e).0.failures.value.hits == 1 && Step(mode, s, e).0.lockUntil == s.lockUntil
  {
  }
}
