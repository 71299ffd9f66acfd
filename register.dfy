/**
 * The registration page (src/app/register/page.tsx): the age computed from
 * the birth date, the under-18 gate, and the `error`/`loading` state of
 * `handleSubmit`. Today's date and the parsed birth date arrive as
 * arguments; account creation is an answer passed in.
 */
module Register {
  import opened Wrappers

  /** A date as the `Date` getters read it: full year, month index and day of the month. */
  datatype CivilDate = CivilDate(year: int, month: int, day: int)

  /** Whether date `a` falls on or before date `b`. */
  predicate OnOrBefore(a: CivilDate, b: CivilDate) {
    a.year < b.year
    || (a.year == b.year && (a.month < b.month || (a.month == b.month && a.day <= b.day)))
  }

  /** The `n`-th birthday of someone born on `birth`. */
  function Anniversary(birth: CivilDate, n: int): CivilDate {
    CivilDate(birth.year + n, birth.month, birth.day)
  }

  /** `calculateAge`: the difference in years, one less while this year's birthday is still to come. */
  function CalculateAge(today: CivilDate, birth: CivilDate): (age: int)
    ensures age == today.year - birth.year || age == today.year - birth.year - 1
    ensures age == today.year - birth.year <==> OnOrBefore(CivilDate(today.year, birth.month, birth.day), today)
  {
    var age := today.year - birth.year;
    var m := today.month - birth.month;
    if m < 0 || (m == 0 && today.day < birth.day) then age - 1 else age
  }

  /** The age is at least `n` exactly when the `n`-th birthday has come. */
  lemma AgeAtLeastIff(today: CivilDate, birth: CivilDate, n: int)
    ensures CalculateAge(today, birth) >= n <==> OnOrBefore(Anniversary(birth, n), today)
  {
    var a := CalculateAge(today, birth);
    if a == today.year - birth.year {
      assert OnOrBefore(CivilDate(today.year, birth.month, birth.day), today);
    } else {
      assert !OnOrBefore(CivilDate(today.year, birth.month, birth.day), today);
    }
  }

  const MinimumAge := 18
  const UnderageMessage := "Debes ser mayor de 18 años para registrarte."

  /**
   * The age `handleSubmit` computes; None when the birth date text does not
   * parse, where the arithmetic gives NaN.
   */
  function AgeOf(today: CivilDate, birth: Option<CivilDate>): (age: Option<int>)
    ensures age.Some? <==> birth.Some?
    ensures age.Some? ==> age.value == CalculateAge(today, birth.value)
  {
    if birth.Some? then Some(CalculateAge(today, birth.value)) else None
  }

  /** `age < 18`; a comparison with NaN is false, so an unparsed date is not turned away. */
  predicate Underage(age: Option<int>) {
    age.Some? && age.value < MinimumAge
  }

  /** The gate admits a parsed birth date exactly from the eighteenth birthday on. */
  lemma GateOpensOnEighteenthBirthday(today: CivilDate, birth: CivilDate)
    ensures !Underage(AgeOf(today, Some(birth))) <==> OnOrBefore(Anniversary(birth, MinimumAge), today)
  {
    AgeAtLeastIff(today, birth, MinimumAge);
  }

  /** What account creation answers: a session token, or an error with its message. */
  datatype RegisterAnswer = Registered(token: string) | Failed(message: string)

  /** The cookie written after a successful registration. */
  function SessionCookie(token: string): string {
    "sessionToken=" + token + "; path=/"
  }

  class RegisterForm {
    var error: string
    var loading: bool

    constructor ()
      ensures error == "" && !loading
    {
      error := "";
      loading := false;
    }

    /**
     * `handleSubmit`. `called` says whether account creation was asked for,
     * and `sentAge` the age handed to it. Loading is over whatever happens.
     */
    method HandleSubmit(today: CivilDate, birth: Option<CivilDate>, answer: RegisterAnswer)
      returns (called: bool, sentAge: Option<int>, cookie: Option<string>, route: Option<string>)
      modifies this
      ensures !loading
      ensures Underage(AgeOf(today, birth)) ==>
        error == UnderageMessage && !called && cookie.None? && route.None?
      ensures !Underage(AgeOf(today, birth)) ==> called && sentAge == AgeOf(today, birth)
      ensures !Underage(AgeOf(today, birth)) && answer.Registered? ==>
        error == "" && cookie == Some(SessionCookie(answer.token)) && route == Some("/")
      ensures !Underage(AgeOf(today, birth)) && answer.Failed? ==>
        error == answer.message && cookie.None? && route.None?
    {
      error := "";
      loading := true;
      called, sentAge, cookie, route := false, None, None, None;
      var age := AgeOf(today, birth);
      if Underage(age) {
        error := UnderageMessage;
        loading := false;
        return;
      }
      called, sentAge := true, age;
      match answer {
        case Registered(token) =>
          cookie := Some(SessionCookie(token));
          route := Some("/");
        case Failed(message) =>
          error := message;
      }
      loading := false;
    }
  }
}
