/**
 HuacayaSettingsForm: the broker and JWT settings form. Validation falls
 back to the stored broker password when the submitted one is blank and
 runs the JWT-expiry checks in a fixed order; submission clears or sets the
 broker credentials and saves the URL and expiry as submitted.
 */
module Form {
  import opened Php

  const BrokerUrl := "broker_url"
  const BrokerUser := "broker_user"
  const BrokerPassword := "broker_password"
  const JwtExpiry := "jwt_expiry"

  /** The interval words an expiry must contain, each optionally followed by "s". */
  const TimeIntervals: seq<string> := ["sec", "second", "min", "minute", "hour", "day", "week", "month", "year"]

  /** The submitted values the form reads. */
  datatype FormValues = FormValues(
    brokerUrl: string,
    provideUserCreds: bool,
    brokerUser: string,
    brokerPassword: string,
    jwtExpiry: string)

  /** How the broker probe ends; the probe itself is network I/O and is not modelled. */
  datatype Probe =
    | ClientRejected   // `new Client($brokerUrl)` throws, before the credentials are looked at
    | Unreachable      // subscribing throws, after the login was set
    | Reachable

  datatype Credentials = Credentials(user: string, password: string)

  // ---------------------------------------------------------------------------
  // The JWT expiry checks
  // ---------------------------------------------------------------------------

  /** A character `\w` matches. */
  predicate IsWordChar(c: char) {
    'a' <= c <= 'z' || 'A' <= c <= 'Z' || '0' <= c <= '9' || c == '_'
  }

  /** `\b` at position i: a word character on exactly one side. */
  predicate Boundary(s: string, i: int)
    requires 0 <= i <= |s|
  {
    (i > 0 && IsWordChar(s[i - 1])) != (i < |s| && IsWordChar(s[i]))
  }

  /** `\bunit s?\b` matches at position i. */
  predicate UnitAt(s: string, i: int, unit: string)
    requires 0 <= i <= |s|
  {
    && i + |unit| <= |s|
    && s[i..i + |unit|] == unit
    && Boundary(s, i)
    && (|| Boundary(s, i + |unit|)
        || (i + |unit| < |s| && s[i + |unit|] == 's' && Boundary(s, i + |unit| + 1)))
  }

  /** `preg_match("/\b(sec|second|...|year)s?\b/", $s)`. */
  predicate ContainsInterval(s: string) {
    exists i, unit :: 0 <= i <= |s| && unit in TimeIntervals && UnitAt(s, i, unit)
  }

  /** `substr($s, 0, 1) == "-"`. */
  predicate StartsWithMinus(s: string) {
    |s| > 0 && s[0] == '-'
  }

  datatype ExpiryVerdict = NotATime | Negative | NoNumber | NoUnit | Accepted

  /**
   The expiry checks, on the trimmed and lower-cased string, in order:
   `strtotime` fails, a leading "-", `intval` is 0, no interval word. The
   first that fails decides, so at most one is reported.
   */
  function CheckExpiry(raw: string, strtotime: string -> bool, intval: string -> int): (r: ExpiryVerdict)
    ensures var e := Normalize(raw);
      && (r == NotATime <==> !strtotime(e))
      && (r == Negative ==> strtotime(e) && StartsWithMinus(e))
      && (r == NoNumber ==> strtotime(e) && !StartsWithMinus(e) && intval(e) == 0)
      && (r == NoUnit ==> strtotime(e) && !StartsWithMinus(e) && intval(e) != 0 && !ContainsInterval(e))
      && (r == Accepted <==> strtotime(e) && !StartsWithMinus(e) && intval(e) != 0 && ContainsInterval(e))
  {
    var e := Normalize(raw);
    if !strtotime(e) then NotATime
    else if StartsWithMinus(e) then Negative
    else if intval(e) == 0 then NoNumber
    else if !ContainsInterval(e) then NoUnit
    else Accepted
  }

  /** Padding and case never change the verdict: checking the normal form gives the same answer. */
  lemma CheckExpiryIgnoresPaddingAndCase(raw: string, strtotime: string -> bool, intval: string -> int)
    ensures CheckExpiry(Normalize(raw), strtotime, intval) == CheckExpiry(raw, strtotime, intval)
  {
    NormalizeIdempotent(raw);
  }

  /** `implode($separator, $parts)`. */
  function Implode(separator: string, parts: seq<string>): string {
    if parts == [] then ""
    else if |parts| == 1 then parts[0]
    else parts[0] + separator + Implode(separator, parts[1..])
  }

  /** The message the form reports for a verdict other than Accepted. */
  function ExpiryMessage(verdict: ExpiryVerdict, expiry: string): string {
    match verdict
    case NotATime => "\"" + expiry + "\" is not a valid time or interval expression."
    case Negative => "Time or interval expression cannot be negative"
    case NoNumber => "No numeric interval specified, for example \"1 day\""
    case NoUnit => "No time interval found, please include one of (" + Implode(", ", TimeIntervals) + "). Plurals are also accepted."
    case Accepted => ""
  }

  /** Every unit word is lower-case letters only. */
  lemma TimeIntervalsAreLetters(unit: string)
    requires unit in TimeIntervals
    ensures |unit| > 0 && forall k :: 0 <= k < |unit| ==> 'a' <= unit[k] <= 'z'
  {
  }

  predicate IsDigits(n: string) {
    |n| > 0 && forall k :: 0 <= k < |n| ==> '0' <= n[k] <= '9'
  }

  /**
   Every unit is accepted after a number and a space, singular or plural:
   "60 sec", "60 secs", "2 days", "10 hours", "7 weeks".
   */
  lemma {:induction false} UnitAccepted(n: string, unit: string, plural: bool)
    requires IsDigits(n) && unit in TimeIntervals
    ensures ContainsInterval(n + " " + unit + (if plural then "s" else ""))
  {
    var s := n + " " + unit + (if plural then "s" else "");
    var i := |n| + 1;
    TimeIntervalsAreLetters(unit);
    assert s[i - 1] == ' ' && s[i] == unit[0];
    assert s[i..i + |unit|] == unit;
    if plural {
      assert s[i + |unit|] == 's' && i + |unit| + 1 == |s|;
    } else {
      assert i + |unit| == |s| && s[|s| - 1] == unit[|unit| - 1];
    }
    assert UnitAt(s, i, unit);
  }

  /** A string without a lower-case letter names no interval ("60", "-5", "12:00"). */
  lemma NoLetterNoInterval(s: string)
    requires forall k :: 0 <= k < |s| ==> !('a' <= s[k] <= 'z')
    ensures !ContainsInterval(s)
  {
    forall i, unit | 0 <= i <= |s| && unit in TimeIntervals
      ensures !UnitAt(s, i, unit)
    {
      TimeIntervalsAreLetters(unit);
      if i + |unit| <= |s| {
        assert s[i..i + |unit|][0] == s[i];
      }
    }
  }

  /**
   A unit followed by more of the same word is no match: "1 weekend",
   "5 dayz", "3 secsx". The `s?` only helps when the "s" itself ends the word.
   */
  lemma UnitFollowedByWordChar(s: string, i: int, unit: string)
    requires 0 <= i && unit in TimeIntervals && i + |unit| < |s| && IsWordChar(s[i + |unit|])
    requires s[i + |unit|] == 's' ==> i + |unit| + 1 < |s| && IsWordChar(s[i + |unit| + 1])
    ensures !UnitAt(s, i, unit)
  {
    TimeIntervalsAreLetters(unit);
    var j := i + |unit|;
    if s[i..j] == unit {
      assert s[j - 1] == unit[|unit| - 1];
      assert !Boundary(s, j);
      if s[j] == 's' {
        assert !Boundary(s, j + 1);
      }
    }
  }

  // ---------------------------------------------------------------------------
  // validateForm
  // ---------------------------------------------------------------------------

  /** The password check runs: the client was built and credentials are requested. */
  predicate ChecksCredentials(values: FormValues, probe: Probe) {
    probe != ClientRejected && values.provideUserCreds
  }

  /**
   The login the broker client is given: the submitted user, and the
   submitted password, or the stored one when the submitted one is blank
   and a password is stored.
   */
  function Login(values: FormValues, stored: Option<string>, probe: Probe): (r: Option<Credentials>)
    ensures r.Some? <==> ChecksCredentials(values, probe)
    ensures r.Some? ==> r.value.user == values.brokerUser
    ensures r.Some? && !Empty(values.brokerPassword) ==> r.value.password == values.brokerPassword
    ensures r.Some? && Empty(values.brokerPassword) && !EmptyOrNull(stored) ==> r.value.password == stored.value
    ensures r.Some? && Empty(values.brokerPassword) && EmptyOrNull(stored) ==> r.value.password == values.brokerPassword
  {
    if !ChecksCredentials(values, probe) then None
    else if Empty(values.brokerPassword) && !EmptyOrNull(stored) then Some(Credentials(values.brokerUser, stored.value))
    else Some(Credentials(values.brokerUser, values.brokerPassword))
  }

  const PasswordRequired := "A password must be supplied"

  /** The error the password check sets: credentials requested, none submitted and none stored. */
  function PasswordErrors(values: FormValues, stored: Option<string>, probe: Probe): seq<(string, string)> {
    if ChecksCredentials(values, probe) && Empty(values.brokerPassword) && EmptyOrNull(stored)
    then [(BrokerPassword, PasswordRequired)] else []
  }

  /** The error the broker probe sets when it fails. */
  function BrokerErrors(values: FormValues, probe: Probe): seq<(string, string)> {
    if probe != Reachable then [(BrokerUrl, "Cannot connect to message broker at " + values.brokerUrl)] else []
  }

  /** The error the expiry checks set, quoting the normalized expiry. */
  function ExpiryErrors(raw: string, strtotime: string -> bool, intval: string -> int): seq<(string, string)> {
    var verdict := CheckExpiry(raw, strtotime, intval);
    if verdict == Accepted then [] else [(JwtExpiry, ExpiryMessage(verdict, Normalize(raw)))]
  }

  /** The errors `validateForm` sets, in the order it sets them. */
  function ValidationErrors(values: FormValues, stored: Option<string>, probe: Probe,
                            strtotime: string -> bool, intval: string -> int): seq<(string, string)> {
    PasswordErrors(values, stored, probe) + BrokerErrors(values, probe) + ExpiryErrors(values.jwtExpiry, strtotime, intval)
  }

  /** `setErrorByName`: the first error set on a name is the one kept. */
  function Record(errors: map<string, string>, error: (string, string)): (r: map<string, string>)
    ensures r.Keys == errors.Keys + {error.0}
    ensures error.0 !in errors ==> r[error.0] == error.1
    ensures forall name :: name in errors ==> r[name] == errors[name]
  {
    if error.0 in errors then errors else errors[error.0 := error.1]
  }

  /** Errors set one after another: every error already set stays as it was. */
  function Recorded(errors: map<string, string>, list: seq<(string, string)>): (r: map<string, string>)
    ensures forall name :: name in errors ==> name in r && r[name] == errors[name]
    decreases |list|
  {
    if list == [] then errors else Recorded(Record(errors, list[0]), list[1..])
  }

  /** Setting errors from two lists is setting them from the one list they make. */
  lemma {:induction false} RecordedAppend(errors: map<string, string>, a: seq<(string, string)>, b: seq<(string, string)>)
    ensures Recorded(errors, a + b) == Recorded(Recorded(errors, a), b)
    decreases |a|
  {
    if a == [] {
      assert a + b == b;
    } else {
      assert (a + b)[0] == a[0];
      assert (a + b)[1..] == a[1..] + b;
      RecordedAppend(Record(errors, a[0]), a[1..], b);
    }
  }

  /** Setting no error or one error. */
  lemma RecordedShort(errors: map<string, string>, list: seq<(string, string)>)
    requires |list| <= 1
    ensures Recorded(errors, list) == if list == [] then errors else Record(errors, list[0])
  {
    if list != [] {
      assert list[1..] == [];
    }
  }

  /**
   What a submission is told: a password error exactly when credentials are
   requested and neither a submitted nor a stored password exists; a broker
   error exactly when the probe fails; an expiry error exactly when the
   expiry checks reject it, with the message of the first failing check.
   No other field gets an error.
   */
  lemma ValidationReport(values: FormValues, stored: Option<string>, probe: Probe,
                         strtotime: string -> bool, intval: string -> int)
    ensures var errors := Recorded(map[], ValidationErrors(values, stored, probe, strtotime, intval));
      var verdict := CheckExpiry(values.jwtExpiry, strtotime, intval);
      && errors.Keys <= {BrokerPassword, BrokerUrl, JwtExpiry}
      && (BrokerPassword in errors <==> ChecksCredentials(values, probe) && Empty(values.brokerPassword) && EmptyOrNull(stored))
      && (BrokerPassword in errors ==> errors[BrokerPassword] == PasswordRequired)
      && (BrokerUrl in errors <==> probe != Reachable)
      && (BrokerUrl in errors ==> errors[BrokerUrl] == "Cannot connect to message broker at " + values.brokerUrl)
      && (JwtExpiry in errors <==> verdict != Accepted)
      && (JwtExpiry in errors ==> errors[JwtExpiry] == ExpiryMessage(verdict, Normalize(values.jwtExpiry)))
  {
    var p := PasswordErrors(values, stored, probe);
    var b := BrokerErrors(values, probe);
    var x := ExpiryErrors(values.jwtExpiry, strtotime, intval);
    var e1 := Recorded(map[], p);
    var e2 := Recorded(e1, b);
    var e3 := Recorded(e2, x);
    RecordedAppend(map[], p + b, x);
    RecordedAppend(map[], p, b);
    assert Recorded(map[], ValidationErrors(values, stored, probe, strtotime, intval)) == e3;
    RecordedShort(map[], p);
    assert BrokerPassword in e1 <==> p != [];
    assert e1.Keys <= {BrokerPassword};
    RecordedShort(e1, b);
    assert BrokerUrl in e2 <==> b != [];
    assert e2.Keys <= {BrokerPassword, BrokerUrl};
    RecordedShort(e2, x);
    assert JwtExpiry in e3 <==> x != [];
  }

  /** The state of the form as validation sees it. */
  class FormState {
    var errors: map<string, string>

    constructor ()
      ensures errors == map[]
    {
      errors := map[];
    }

    /** `$form_state->setErrorByName($name, $message)`. */
    method SetErrorByName(name: string, message: string)
      modifies this
      ensures errors == Record(old(errors), (name, message))
    {
      errors := Record(errors, (name, message));
    }
  }

  // ---------------------------------------------------------------------------
  // submitForm
  // ---------------------------------------------------------------------------

  /**
   The configuration `submitForm` saves. Unchecked credentials clear user
   and password. Checked credentials set the user, and the password only
   when a non-empty one different from the stored one is submitted. The URL
   and the expiry are saved exactly as submitted. Nothing else changes.
   */
  function Submitted(data: map<string, string>, values: FormValues, stored: Option<string>): (r: map<string, string>)
    ensures !values.provideUserCreds ==> BrokerUser !in r && BrokerPassword !in r
    ensures values.provideUserCreds ==> BrokerUser in r && r[BrokerUser] == values.brokerUser
    ensures values.provideUserCreds && !Empty(values.brokerPassword) && Some(values.brokerPassword) != stored ==>
      BrokerPassword in r && r[BrokerPassword] == values.brokerPassword
    ensures values.provideUserCreds && (Empty(values.brokerPassword) || Some(values.brokerPassword) == stored) ==>
      (BrokerPassword in r <==> BrokerPassword in data) && (BrokerPassword in r ==> r[BrokerPassword] == data[BrokerPassword])
    ensures BrokerUrl in r && r[BrokerUrl] == values.brokerUrl
    ensures JwtExpiry in r && r[JwtExpiry] == values.jwtExpiry
    ensures forall k :: k !in {BrokerUrl, BrokerUser, BrokerPassword, JwtExpiry} ==>
      (k in r <==> k in data) && (k in r ==> r[k] == data[k])
  {
    var credentials :=
      if !values.provideUserCreds then data - {BrokerUser, BrokerPassword}
      else if !Empty(values.brokerPassword) && Some(values.brokerPassword) != stored
      then data[BrokerUser := values.brokerUser][BrokerPassword := values.brokerPassword]
      else data[BrokerUser := values.brokerUser];
    credentials[BrokerUrl := values.brokerUrl][JwtExpiry := values.jwtExpiry]
  }

  /** A key's value in the configuration, null when it is not set. */
  function Lookup(data: map<string, string>, key: string): Option<string> {
    if key in data then Some(data[key]) else None
  }

  /** The editable `huacaya.settings` configuration and what was last saved of it. */
  class Config {
    var data: map<string, string>
    var saved: map<string, string>

    constructor (data: map<string, string>)
      ensures this.data == data && saved == data
    {
      this.data := data;
      saved := data;
    }

    /** `$config->clear($key)`. */
    method Clear(key: string)
      modifies this
      ensures data == old(data) - {key} && saved == old(saved)
    {
      data := data - {key};
    }

    /** `$config->set($key, $value)`. */
    method Set(key: string, value: string)
      modifies this
      ensures data == old(data)[key := value] && saved == old(saved)
    {
      data := data[key := value];
    }

    /** `$config->save()`. */
    method Save()
      modifies this
      ensures saved == data && data == old(data)
    {
      saved := data;
    }
  }

  class HuacayaSettingsForm {
    const config: Config
    /** The broker password stored when the form was built. */
    const brokerPassword: Option<string>

    constructor (config: Config)
      ensures this.config == config && brokerPassword == Lookup(config.data, BrokerPassword)
    {
      this.config := config;
      brokerPassword := Lookup(config.data, BrokerPassword);
    }

    /**
     `validateForm`: sets the errors `ValidationErrors` lists, in that
     order, and returns the login the broker client was given.
     */
    method ValidateForm(formState: FormState, values: FormValues, probe: Probe,
                        strtotime: string -> bool, intval: string -> int) returns (login: Option<Credentials>)
      modifies formState
      ensures formState.errors == Recorded(old(formState.errors), ValidationErrors(values, brokerPassword, probe, strtotime, intval))
      ensures login == Login(values, brokerPassword, probe)
    {
      ghost var start := formState.errors;
      login := None;
      if probe != ClientRejected && values.provideUserCreds {
        var password := values.brokerPassword;
        if Empty(password) {
          if EmptyOrNull(brokerPassword) {
            formState.SetErrorByName(BrokerPassword, PasswordRequired);
          } else {
            password := brokerPassword.value;
          }
        }
        login := Some(Credentials(values.brokerUser, password));
      }
      ghost var p := PasswordErrors(values, brokerPassword, probe);
      RecordedShort(start, p);
      assert formState.errors == Recorded(start, p);

      if probe != Reachable {
        formState.SetErrorByName(BrokerUrl, "Cannot connect to message broker at " + values.brokerUrl);
      }
      ghost var b := BrokerErrors(values, probe);
      RecordedShort(Recorded(start, p), b);
      RecordedAppend(start, p, b);
      assert formState.errors == Recorded(start, p + b);

      ValidateExpiry(formState, values.jwtExpiry, strtotime, intval);
      RecordedAppend(start, p + b, ExpiryErrors(values.jwtExpiry, strtotime, intval));
    }

    /** The expiry part of `validateForm`: the checks run in order and the first failure sets the error. */
    method ValidateExpiry(formState: FormState, raw: string, strtotime: string -> bool, intval: string -> int)
      modifies formState
      ensures formState.errors == Recorded(old(formState.errors), ExpiryErrors(raw, strtotime, intval))
    {
      RecordedShort(formState.errors, ExpiryErrors(raw, strtotime, intval));
      var expiry := Trim(raw);
      expiry := ToLower(expiry);
      if !strtotime(expiry) {
        formState.SetErrorByName(JwtExpiry, "\"" + expiry + "\" is not a valid time or interval expression.");
      } else if StartsWithMinus(expiry) {
        formState.SetErrorByName(JwtExpiry, "Time or interval expression cannot be negative");
      } else if intval(expiry) == 0 {
        formState.SetErrorByName(JwtExpiry, "No numeric interval specified, for example \"1 day\"");
      } else if !ContainsInterval(expiry) {
        formState.SetErrorByName(JwtExpiry, "No time interval found, please include one of (" + Implode(", ", TimeIntervals) + "). Plurals are also accepted.");
      }
    }

    /** `submitForm`: applies `Submitted` to the configuration and saves it. */
    method SubmitForm(values: FormValues)
      modifies config
      ensures config.data == Submitted(old(config.data), values, brokerPassword)
      ensures config.saved == config.data
    {
      var password := values.brokerPassword;
      if !values.provideUserCreds {
        config.Clear(BrokerUser);
        config.Clear(BrokerPassword);
      } else {
        config.Set(BrokerUser, values.brokerUser);
        if !Empty(password) && Some(password) != brokerPassword {
          config.Set(BrokerPassword, password);
        }
      }
      config.Set(BrokerUrl, values.brokerUrl);
      config.Set(JwtExpiry, values.jwtExpiry);
      config.Save();
    }
  }
}
