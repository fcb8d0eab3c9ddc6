/** The login screen of src/views/Login.tsx: the phone-number mask and
    its normalisation, the acceptance checks of a login, and the
    remember-me session kept in browser storage for 24 hours. The table of
    authorised numbers is a parameter: a map from the 11-digit number to
    the user's name. */
module Login {

  import opened Base
  import opened Text

  /** `normalizePhoneNumber`, lines 22-24: the digits of the input. */
  function NormalizePhoneNumber(value: string): string
  {
    Digits(value)
  }

  function Min(a: int, b: int): int
  {
    if a < b then a else b
  }

  /** `formatPhoneNumber`, lines 15-20: up to two digits bare, up to seven
      as `(dd) ddddd`, more as `(dd) ddddd-dddd`, dropping every digit
      after the eleventh. */
  function FormatPhoneNumber(value: string): string
  {
    var d := Digits(value);
    if |d| <= 2 then d
    else if |d| <= 7 then "(" + d[..2] + ") " + d[2..]
    else "(" + d[..2] + ") " + d[2..7] + "-" + d[7..Min(11, |d|)]
  }

  /** Normalising keeps exactly the digits, in order, and a second
      normalisation changes nothing. */
  lemma NormalizeLaws(value: string)
    ensures AllDigits(NormalizePhoneNumber(value))
    ensures forall c :: c in NormalizePhoneNumber(value) <==> c in value && IsDigit(c)
    ensures NormalizePhoneNumber(NormalizePhoneNumber(value)) == NormalizePhoneNumber(value)
  {
    DigitsOfDigits(Digits(value));
  }

  /** Appending text without digits, then digits, adds just those digits. */
  lemma PunctThenDigits(x: string, p: string, y: string)
    requires forall i :: 0 <= i < |p| ==> !IsDigit(p[i])
    requires AllDigits(y)
    ensures Digits(x + p + y) == Digits(x) + y
  {
    var xp := x + p;
    assert Digits(xp) == Digits(x) by {
      DigitsAppend(x, p);
      NoDigits(p);
    }
    assert Digits(y) == y by {
      DigitsOfDigits(y);
    }
    DigitsAppend(xp, y);
  }

  /** Text without digits, then digits: just those digits. */
  lemma PunctDigits(p: string, y: string)
    requires forall i :: 0 <= i < |p| ==> !IsDigit(p[i])
    requires AllDigits(y)
    ensures Digits(p + y) == y
  {
    DigitsAppend(p, y);
    NoDigits(p);
    DigitsOfDigits(y);
  }

  lemma {:induction false} NoDigits(q: string)
    requires forall i :: 0 <= i < |q| ==> !IsDigit(q[i])
    ensures Digits(q) == []
  {
    if q != [] {
      NoDigits(q[1..]);
    }
  }

  /** The digits of `(aa) bbbbb`. */
  lemma MaskDigits(a: string, b: string)
    requires AllDigits(a) && AllDigits(b)
    ensures Digits("(" + a + ") " + b) == a + b
  {
    PunctDigits("(", a);
    PunctThenDigits("(" + a, ") ", b);
  }

  /** The digits of `(aa) bbbbb-cccc`. */
  lemma FullMaskDigits(a: string, b: string, c: string)
    requires AllDigits(a) && AllDigits(b) && AllDigits(c)
    ensures Digits("(" + a + ") " + b + "-" + c) == a + b + c
  {
    var s := "(" + a + ") " + b;
    assert Digits(s) == a + b by {
      MaskDigits(a, b);
    }
    PunctThenDigits(s, "-", c);
  }

  /** Slices of a digit string are digit strings. */
  lemma DigitSlices(d: string, i: nat, j: nat)
    requires AllDigits(d) && i <= j <= |d|
    ensures AllDigits(d[..i]) && AllDigits(d[i..j]) && AllDigits(d[j..])
  {
    assert forall k :: 0 <= k < i ==> d[..i][k] == d[k];
    assert forall k :: 0 <= k < j - i ==> d[i..j][k] == d[i + k];
    assert forall k :: 0 <= k < |d| - j ==> d[j..][k] == d[j + k];
  }

  /** The digits of the short mask, for three to seven digits. */
  lemma MidRoundTrip(d: string)
    requires AllDigits(d) && 2 < |d|
    ensures Digits("(" + d[..2] + ") " + d[2..]) == d
  {
    DigitSlices(d, 2, 2);
    MaskDigits(d[..2], d[2..]);
    assert d[..2] + d[2..] == d;
  }

  /** The digits of the full mask, for eight digits and more. */
  lemma LongRoundTrip(d: string, m: nat)
    requires AllDigits(d) && 7 < m <= |d|
    ensures Digits("(" + d[..2] + ") " + d[2..7] + "-" + d[7..m]) == d[..m]
  {
    DigitSlices(d, 2, 7);
    DigitSlices(d, 7, m);
    FullMaskDigits(d[..2], d[2..7], d[7..m]);
    assert d[..2] + d[2..7] + d[7..m] == d[..m];
  }

  /** The round trip: the digits of the masked number are the digits of
      the input, cut to eleven. */
  lemma FormatRoundTrip(value: string)
    ensures NormalizePhoneNumber(FormatPhoneNumber(value)) == Digits(value)[..Min(11, |Digits(value)|)]
  {
    var d := Digits(value);
    if |d| <= 2 {
      DigitsOfDigits(d);
      assert d[..Min(11, |d|)] == d;
    } else if |d| <= 7 {
      MidRoundTrip(d);
      assert d[..Min(11, |d|)] == d;
    } else {
      LongRoundTrip(d, Min(11, |d|));
    }
  }

  /** Masking the masked text again changes nothing, so the field is
      stable as it is re-masked on every keystroke. */
  lemma FormatIdempotent(value: string)
    ensures FormatPhoneNumber(FormatPhoneNumber(value)) == FormatPhoneNumber(value)
  {
    var d := Digits(value);
    var m := Min(11, |d|);
    FormatRoundTrip(value);
    var e := d[..m];
    assert Digits(FormatPhoneNumber(value)) == e;
    if |d| > 7 {
      assert e[..2] == d[..2] && e[2..7] == d[2..7] && e[7..Min(11, |e|)] == d[7..m];
    } else if |d| > 2 {
      assert e == d;
    }
  }

  // ---- Logging in and the remembered session -------------------------------

  const PhoneKey: string := "financecontrol_phone"
  const RememberKey: string := "financecontrol_remember_me"
  const LastLoginKey: string := "financecontrol_last_login"

  const LengthError: string := "Por favor, digite um telefone válido com 11 dígitos"
  const UnauthorizedError: string := "Telefone não autorizado para acessar o sistema"

  /** 24 hours in milliseconds. */
  const SessionMs: int := 24 * 60 * 60 * 1000

  /** The arguments of `onLogin`. */
  datatype LoginCall = LoginCall(userId: string, userName: string, phone: string, rememberMe: bool)

  /** A number is authorised when the table names a user for it; an empty
      name is falsy and refused like a missing one. */
  predicate Authorized(authorized: map<string, string>, phone: string)
  {
    phone in authorized && authorized[phone] != ""
  }

  /** What the remember-me effect does with the stored keys. */
  datatype Restore = Resume(call: LoginCall) | Expire | Keep

  /** Lines 32-51: with the flag `'true'`, a saved phone and a saved login
      time, a session younger than 24 hours is resumed for an authorised
      phone, and an older one (or a time that does not parse, for which the
      hours are NaN) is cleared; in every other case nothing happens. */
  function RestoreDecision(storage: map<string, string>, authorized: map<string, string>, nowMs: int): (r: Restore)
    ensures r.Resume? ==> PhoneKey in storage && Authorized(authorized, storage[PhoneKey])
    ensures r.Resume? ==> r.call == LoginCall(storage[PhoneKey], authorized[storage[PhoneKey]], storage[PhoneKey], true)
  {
    if RememberKey in storage && storage[RememberKey] == "true" && PhoneKey in storage && storage[PhoneKey] != ""
       && LastLoginKey in storage && storage[LastLoginKey] != "" then
      var phone := storage[PhoneKey];
      match ParseNat(storage[LastLoginKey])
      case Some(last) =>
        if nowMs - last < SessionMs then
          if Authorized(authorized, phone) then Resume(LoginCall(phone, authorized[phone], phone, true)) else Keep
        else Expire
      case None => Expire
    else Keep
  }

  /** The login screen's state and the browser storage it reads and writes. */
  class LoginScreen {
    var phone: string
    var rememberMe: bool
    var error: string
    var loading: bool
    var storage: map<string, string>

    constructor(stored: map<string, string>)
      ensures phone == "" && !rememberMe && error == "" && !loading && storage == stored
    {
      phone := "";
      rememberMe := false;
      error := "";
      loading := false;
      storage := stored;
    }

    /** `handlePhoneChange`: the field shows the masked input and the
        error is cleared. */
    method PhoneChange(value: string)
      modifies this
      ensures phone == FormatPhoneNumber(value) && error == ""
      ensures rememberMe == old(rememberMe) && loading == old(loading) && storage == old(storage)
    {
      phone := FormatPhoneNumber(value);
      error := "";
    }

    /** `handleLogin`, lines 60-95: refuses a number that is not eleven
        digits long, then one the table does not authorise, each with its
        message; otherwise records or forgets the session as asked and logs
        the user in under the normalised number. */
    method HandleLogin(authorized: map<string, string>, nowMs: nat) returns (call: Option<LoginCall>)
      modifies this
      ensures var n := NormalizePhoneNumber(old(phone));
        (|n| != 11 ==> call.None? && error == LengthError) &&
        (|n| == 11 && !Authorized(authorized, n) ==> call.None? && error == UnauthorizedError) &&
        (call.None? ==> storage == old(storage)) &&
        (call.Some? <==> |n| == 11 && Authorized(authorized, n)) &&
        (call.Some? ==> call.value == LoginCall(n, authorized[n], n, old(rememberMe)) && error == "") &&
        (call.Some? && old(rememberMe) ==>
          storage == old(storage)[PhoneKey := n][RememberKey := "true"][LastLoginKey := NatToString(nowMs)]) &&
        (call.Some? && !old(rememberMe) ==> storage == old(storage) - {PhoneKey, RememberKey, LastLoginKey})
      ensures !loading && phone == old(phone) && rememberMe == old(rememberMe)
    {
      error := "";
      loading := true;
      var normalized := NormalizePhoneNumber(phone);
      if |normalized| != 11 {
        error := LengthError;
        loading := false;
        return None;
      }
      if !Authorized(authorized, normalized) {
        error := UnauthorizedError;
        loading := false;
        return None;
      }
      if rememberMe {
        storage := storage[PhoneKey := normalized][RememberKey := "true"][LastLoginKey := NatToString(nowMs)];
      } else {
        storage := storage - {PhoneKey, RememberKey, LastLoginKey};
      }
      call := Some(LoginCall(normalized, authorized[normalized], normalized, rememberMe));
      loading := false;
    }

    /** The remember-me effect: resumes the session, or clears the three
        keys of an expired one. */
    method RestoreRemembered(authorized: map<string, string>, nowMs: int) returns (call: Option<LoginCall>)
      modifies this
      ensures var d := RestoreDecision(old(storage), authorized, nowMs);
        (call.Some? <==> d.Resume?) && (d.Resume? ==> call.value == d.call) &&
        (d.Expire? ==> storage == old(storage) - {PhoneKey, RememberKey, LastLoginKey}) &&
        (!d.Expire? ==> storage == old(storage))
      ensures phone == old(phone) && rememberMe == old(rememberMe) && error == old(error) && loading == old(loading)
    {
      var d := RestoreDecision(storage, authorized, nowMs);
      call := None;
      match d
      case Resume(c) => call := Some(c);
      case Expire => storage := storage - {PhoneKey, RememberKey, LastLoginKey};
      case Keep =>
    }
  }

  /** The storage a remembered login leaves behind. */
  function Remembered(storage: map<string, string>, phone: string, nowMs: nat): map<string, string>
  {
    storage[PhoneKey := phone][RememberKey := "true"][LastLoginKey := NatToString(nowMs)]
  }

  /** A remembered login comes back: within 24 hours of logging in with
      remember-me, the effect logs the same user in again under the same
      number, and from 24 hours on it expires the session instead. */
  lemma RememberedLoginRestores(storage: map<string, string>, authorized: map<string, string>,
                                phone: string, loginMs: nat, nowMs: int)
    requires |phone| == 11 && Authorized(authorized, phone)
    ensures nowMs - loginMs < SessionMs ==>
      RestoreDecision(Remembered(storage, phone, loginMs), authorized, nowMs) ==
        Resume(LoginCall(phone, authorized[phone], phone, true))
    ensures nowMs - loginMs >= SessionMs ==> RestoreDecision(Remembered(storage, phone, loginMs), authorized, nowMs) == Expire
  {
    ParseNatToString(loginMs);
    var s := Remembered(storage, phone, loginMs);
    assert s[PhoneKey] == phone && s[RememberKey] == "true" && s[LastLoginKey] == NatToString(loginMs);
  }

  /** Once cleared, whether by an expired session or a login without
      remember-me, nothing is resumed any more. */
  lemma ClearedStaysCleared(storage: map<string, string>, authorized: map<string, string>, nowMs: int)
    ensures RestoreDecision(storage - {PhoneKey, RememberKey, LastLoginKey}, authorized, nowMs) == Keep
  {
  }
}
