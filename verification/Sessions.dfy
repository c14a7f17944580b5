/**
 The session of the browser: a token and the text of its expiry, kept in the session storage, written by
 sign-in and sign-out, and read by four separately written gates. The clock may show any time; reading
 an expiry text as a date is a given function, which gives nothing for a text that is not a date.
 */
module Sessions {
  import opened Basics

  type Parse = string -> Option<int>

  datatype Storage = Storage(token: Option<string>, expires: Option<string>)

  const EMPTY := Storage(None, None)

  /** A stored text that is missing or empty counts as absent. */
  predicate Present(text: Option<string>) {
    text.Some? && text.value != ""
  }

  /** The token, if there is one and its expiry is a date in the future. */
  function Usable(parse: Parse, s: Storage, now: int): Option<string> {
    if Present(s.token) && Present(s.expires) && parse(s.expires.value).Some? && now < parse(s.expires.value).value
    then s.token else None
  }

  /** What every history keeps: a stored token comes with the text of a date. */
  predicate Sound(parse: Parse, s: Storage) {
    s == EMPTY || (Present(s.token) && Present(s.expires) && parse(s.expires.value).Some?)
  }

  // ---------------------------------------------------------------------------------------------
  // The gates, as they are written
  // ---------------------------------------------------------------------------------------------

  /** A comparison with something that is not a number is false. */
  predicate NotBefore(now: int, date: Option<int>) {
    date.Some? && now >= date.value
  }

  function ElevationGate(parse: Parse, s: Storage, now: int): Option<string> {
    if !Present(s.token) || !Present(s.expires) then None
    else
      var date := parse(s.expires.value);
      if date.None? || NotBefore(now, date) then None else s.token
  }

  datatype Signal = SessionExpired

  function EditingGate(parse: Parse, s: Storage, now: int): Result<string, Signal> {
    if !Present(s.token) || !Present(s.expires) || parse(s.expires.value).None? || NotBefore(now, parse(s.expires.value)) then
      Err(SessionExpired)
    else Ok(s.token.value)
  }

  /** The gate of the forms does not ask whether the expiry is a date. */
  function FormsGate(parse: Parse, s: Storage, now: int): Option<string> {
    if !Present(s.token) || !Present(s.expires) || NotBefore(now, parse(s.expires.value)) then None else s.token
  }

  /** A fifth reader, of the location search, that looks at the token alone. */
  function UncheckedReader(s: Storage): Option<string> {
    if Present(s.token) then s.token else None
  }

  function MainGate(parse: Parse, s: Storage, now: int): Option<string> {
    if !Present(s.token) then None
    else if !Present(s.expires) || parse(s.expires.value).None? || NotBefore(now, parse(s.expires.value)) then None
    else s.token
  }

  predicate Undated(parse: Parse, s: Storage) {
    Present(s.token) && Present(s.expires) && parse(s.expires.value).None?
  }

  /** All gates give the usable token, at any time, exactly as long as no token is stored with an expiry that is no date. */
  lemma GatesAgreeExactly(parse: Parse, s: Storage)
    ensures forall now :: MainGate(parse, s, now) == Usable(parse, s, now) == ElevationGate(parse, s, now)
    ensures forall now :: EditingGate(parse, s, now) ==
              (if Usable(parse, s, now).Some? then Ok(Usable(parse, s, now).value) else Err(SessionExpired))
    ensures (forall now :: FormsGate(parse, s, now) == Usable(parse, s, now)) <==> !Undated(parse, s)
  {
    if Undated(parse, s) {
      assert FormsGate(parse, s, 0) != Usable(parse, s, 0);
    }
  }

  function Accepted(r: Result<string, Signal>): Option<string> {
    if r.Ok? then Some(r.value) else None
  }

  /**
   The reader without a check agrees with the gates at a time exactly when no token is stored, or one with
   an expiry text that is a date, and the clock has not reached it.
   */
  lemma UncheckedReaderDiffersExactly(parse: Parse, s: Storage, now: int)
    ensures var same := !Present(s.token)
                        || (Present(s.expires) && parse(s.expires.value).Some? && now < parse(s.expires.value).value);
            && (UncheckedReader(s) == MainGate(parse, s, now) <==> same)
            && (UncheckedReader(s) == ElevationGate(parse, s, now) <==> same)
            && (UncheckedReader(s) == Accepted(EditingGate(parse, s, now)) <==> same)
  {
    GatesAgreeExactly(parse, s);
  }

  // ---------------------------------------------------------------------------------------------
  // Histories
  // ---------------------------------------------------------------------------------------------

  /** What came back from a sign-in request. */
  datatype Answer = NoAnswer | Declined | Unreadable | Received(token: string, expires: string)

  /**
   The steps that touch the storage, each without interruption. A request is two steps: its gate, and
   the arrival of its answer, which may come any number of other steps later.
   */
  datatype Event =
    | SignIn(answer: Answer)
    | Gate(now: int)
    | FormsGated(now: int)
    | Refused(withToken: bool)
    | FormsRefused
    | SignOutEnds

  function Step(parse: Parse, s: Storage, e: Event): Storage {
    match e
    case SignIn(NoAnswer) => s
    case SignIn(Unreadable) => s
    case SignIn(Declined) => EMPTY
    case SignIn(Received(token, expires)) =>
      if token == "" || expires == "" || parse(expires).None? then EMPTY else Storage(Some(token), Some(expires))
    case Gate(now) => if MainGate(parse, s, now).Some? then s else EMPTY
    case FormsGated(now) => if FormsGate(parse, s, now).Some? then s else EMPTY
    case Refused(withToken) => if withToken then EMPTY else s
    case FormsRefused => EMPTY
    case SignOutEnds => EMPTY
  }

  function Run(parse: Parse, events: seq<Event>): Storage {
    if events == [] then EMPTY else Step(parse, Run(parse, events[..|events| - 1]), events[|events| - 1])
  }

  lemma {:induction false} HistoryIsSound(parse: Parse, events: seq<Event>)
    ensures Sound(parse, Run(parse, events))
  {
    if events != [] {
      HistoryIsSound(parse, events[..|events| - 1]);
    }
  }

  /** After any history, and at any time, all four gates accept the same token, and none at or past its expiry. */
  lemma {:induction false} GatesAgreeAfterEveryHistory(parse: Parse, events: seq<Event>, now: int)
    ensures var s := Run(parse, events);
            var usable := Usable(parse, s, now);
            && MainGate(parse, s, now) == FormsGate(parse, s, now) == ElevationGate(parse, s, now) == usable
            && EditingGate(parse, s, now) == (if usable.Some? then Ok(usable.value) else Err(SessionExpired))
            && (usable.Some? ==> s.expires.Some? && parse(s.expires.value).Some? && now < parse(s.expires.value).value)
  {
    HistoryIsSound(parse, events);
    GatesAgreeExactly(parse, Run(parse, events));
  }

  predicate SignsIn(parse: Parse, e: Event, token: string) {
    e.SignIn? && e.answer.Received? && e.answer.token == token && Step(parse, EMPTY, e) != EMPTY
  }

  predicate Ends(e: Event) {
    e.SignOutEnds? || e.FormsRefused? || (e.Refused? && e.withToken)
  }

  /** A usable token is the one of the last sign-in that was accepted, and nothing has ended that session since. */
  lemma {:induction false} UsableTokenIsTheLatest(parse: Parse, events: seq<Event>, now: int)
    returns (k: nat)
    requires Usable(parse, Run(parse, events), now).Some?
    ensures k < |events| && SignsIn(parse, events[k], Usable(parse, Run(parse, events), now).value)
    ensures Some(events[k].answer.expires) == Run(parse, events).expires
    ensures forall i | k < i < |events| ::
            !Ends(events[i]) && (events[i].SignIn? ==> events[i].answer in {NoAnswer, Unreadable})
  {
    var front, last := events[..|events| - 1], events[|events| - 1];
    if last.SignIn? && last.answer.Received? {
      k := |events| - 1;
    } else {
      k := UsableTokenIsTheLatest(parse, front, now);
      assert forall i | 0 <= i < |front| :: front[i] == events[i];
    }
  }

  /**
   A late refusal ends whatever session is stored when it arrives, even one that was begun after the
   refused request was sent; it leaves the storage alone exactly when the request carried no token.
   */
  lemma {:induction false} LateRefusalEndsAnySession(
      parse: Parse, events: seq<Event>, token: string, expires: string, withToken: bool)
    requires token != "" && expires != "" && parse(expires).Some?
    ensures var signedIn := events + [SignIn(Received(token, expires))];
            && Run(parse, signedIn) == Storage(Some(token), Some(expires))
            && (Run(parse, signedIn + [Refused(withToken)]) == Run(parse, signedIn) <==> !withToken)
  {
    var signedIn := events + [SignIn(Received(token, expires))];
    assert signedIn[..|signedIn| - 1] == events;
    var after := signedIn + [Refused(withToken)];
    assert after[..|after| - 1] == signedIn;
  }

  // ---------------------------------------------------------------------------------------------
  // The storage
  // ---------------------------------------------------------------------------------------------

  /** An answer of success: without content, or with a body that is JSON. */
  predicate IsConfirmation(status: nat, readable: bool) {
    status == 204 || (200 <= status < 300 && readable)
  }

  class Browser {
    var token: Option<string>
    var expires: Option<string>
    var notices: nat
    const parse: Parse

    function Contents(): Storage
      reads this
    {
      Storage(token, expires)
    }

    constructor (parse: Parse)
      ensures Contents() == EMPTY && notices == 0 && this.parse == parse
    {
      token, expires, notices, this.parse := None, None, 0, parse;
    }

    method ClearSession()
      modifies this`token, this`expires
      ensures Contents() == EMPTY
    {
      token, expires := None, None;
    }

    method ExpireSession()
      modifies this
      ensures Contents() == EMPTY && notices == old(notices) + 1
    {
      ClearSession();
      notices := notices + 1;
    }

    /** The main gate; it tidies up after itself, and tells of an expiry only when a token was there. */
    method StoredToken(now: int) returns (r: Option<string>)
      modifies this
      ensures r == MainGate(parse, old(Contents()), now) && Contents() == Step(parse, old(Contents()), Gate(now))
      ensures notices == old(notices) + if Present(old(token)) && r.None? then 1 else 0
    {
      if !Present(token) {
        ClearSession();
        return None;
      }
      if !Present(expires) || parse(expires.value).None? || NotBefore(now, parse(expires.value)) {
        ExpireSession();
        return None;
      }
      r := token;
    }

    /** The gate in front of a request: without a stored token the request goes out without one. */
    method TokenForRequest(now: int) returns (r: Result<Option<string>, Signal>)
      modifies this
      ensures Contents() == Step(parse, old(Contents()), Gate(now))
      ensures r.Err? <==> old(token).Some? && Usable(parse, old(Contents()), now).None?
      ensures r.Ok? ==> r.value == Usable(parse, old(Contents()), now)
    {
      var hadStoredToken := token.Some?;
      var usable := StoredToken(now);
      r := if hadStoredToken && usable.None? then Err(SessionExpired) else Ok(usable);
    }

    /** The answer to a request with this status arrives; `sent` is the token it was sent with. */
    method RequestAnswered(status: nat, sent: Option<string>)
      modifies this
      ensures Contents() == if status == 401 then Step(parse, old(Contents()), Refused(sent.Some?)) else old(Contents())
      ensures notices == old(notices) + if status == 401 && sent.Some? then 1 else 0
    {
      if status == 401 && sent.Some? {
        ExpireSession();
      }
    }

    method FormsTokenForRequest(now: int) returns (r: Option<string>)
      modifies this
      ensures r == FormsGate(parse, old(Contents()), now) && Contents() == Step(parse, old(Contents()), FormsGated(now))
      ensures notices == old(notices) + if r.None? then 1 else 0
    {
      if !Present(token) || !Present(expires) || NotBefore(now, parse(expires.value)) {
        token, expires := None, None;
        notices := notices + 1;
        return None;
      }
      r := token;
    }

    method FormsAnswered(status: nat)
      modifies this
      ensures Contents() == if status == 401 then Step(parse, old(Contents()), FormsRefused) else old(Contents())
      ensures notices == old(notices) + if status == 401 then 1 else 0
    {
      if status == 401 {
        token, expires := None, None;
        notices := notices + 1;
      }
    }

    /** A sign-in is accepted only with a token and an expiry that is a date; otherwise an earlier session is over too. */
    method Login(answer: Answer) returns (accepted: bool)
      modifies this`token, this`expires
      ensures Contents() == Step(parse, old(Contents()), SignIn(answer))
      ensures accepted <==> answer.Received? && Contents() == Storage(Some(answer.token), Some(answer.expires))
    {
      accepted := false;
      match answer {
        case NoAnswer =>
        case Unreadable =>
        case Declined => ClearSession();
        case Received(t, e) =>
          if t == "" || e == "" || parse(e).None? {
            ClearSession();
            return;
          }
          token := Some(t);
          expires := Some(e);
          accepted := true;
      }
    }

    /** What others may do to the storage while an answer is awaited. */
    method Meanwhile()
      modifies this
      ensures Sound(parse, old(Contents())) ==> Sound(parse, Contents())
    {
      var steps: nat := *;
      while steps > 0
        invariant Sound(parse, old(Contents())) ==> Sound(parse, Contents())
      {
        var e: Event := *;
        var next := Step(parse, Contents(), e);
        token, expires := next.token, next.expires;
        steps := steps - 1;
      }
    }

    /**
     Signs out: whatever happens on the way, the storage is empty in the end. The revocation counts as
     confirmed when there was no usable token, or when the server answered the request with success, and
     with a body that can be read unless the status says that there is none. `begun` and `asked` are the
     two looks at the clock, `answer` is the status, or nothing without one, and `readable` says whether
     the body is JSON.
     */
    method Logout(begun: int, asked: int, answer: Option<nat>, readable: bool) returns (confirmed: bool)
      modifies this
      ensures Contents() == EMPTY
      ensures confirmed <==>
                Usable(parse, old(Contents()), begun).None? ||
                (Usable(parse, old(Contents()), asked).Some? && answer.Some? && IsConfirmation(answer.value, readable))
    {
      confirmed := true;
      var usable := StoredToken(begun);
      if usable.Some? {
        var sent := TokenForRequest(asked);
        if sent.Err? {
          confirmed := false;
        } else {
          Meanwhile();
          if answer.Some? {
            RequestAnswered(answer.value, sent.value);
          }
          confirmed := answer.Some? && 200 <= answer.value < 300 && (answer.value == 204 || readable);
        }
      }
      ClearSession();
    }
  }
}
