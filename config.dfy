/** The configuration bot.py reads from the environment once, at import time
    (bot.py:15-35): flags, comma-separated ID sets, optional IDs and the
    timeout length. The environment is a map from variable name to value. */
module Config {
  import opened Wrappers
  import opened Text

  type Env = map<string, string>

  /** `os.getenv(key, default)` */
  function GetEnv(env: Env, key: string, default: string): (v: string)
    ensures key in env ==> v == env[key]
    ensures key !in env ==> v == default
  {
    if key in env then env[key] else default
  }

  /** `raw.lower() == "true"` (bot.py:19, 33): true exactly for the four letters
      of "true", each in either case. */
  function ParseFlag(raw: string): (on: bool)
    ensures on <==> |raw| == 4 && forall i :: 0 <= i < 4 ==> raw[i] == "true"[i] || raw[i] == "TRUE"[i]
  {
    Lower(raw) == "true"
  }

  /** The comma-separated tokens of a list value, after every space is removed. */
  function Tokens(raw: string): (ts: seq<string>)
    ensures |ts| >= 1
    ensures forall i :: 0 <= i < |ts| ==> ',' !in ts[i] && ' ' !in ts[i]
    ensures Join(ts, ',') == RemoveChar(raw, ' ')
  {
    var stripped := RemoveChar(raw, ' ');
    var ts := Split(stripped, ',');
    forall i | 0 <= i < |ts| ensures ' ' !in ts[i] {
      JoinContains(ts, ',', i);
    }
    ts
  }

  /** Every part of a join is inside the joined string. */
  lemma {:induction false} JoinContains(parts: seq<string>, sep: char, i: nat)
    requires i < |parts|
    ensures forall c :: c in parts[i] ==> c in Join(parts, sep)
  {
    if |parts| > 1 && i > 0 {
      JoinContains(parts[1..], sep, i - 1);
    }
  }

  /** `_to_set` (bot.py:22-24): the tokens made only of digits, as integers. */
  function ToSet(raw: string): (ids: set<nat>)
    ensures forall n :: n in ids ==> exists t :: t in Tokens(raw) && IsDigitString(t) && ParseNat(t) == n
  {
    set t | t in Tokens(raw) && IsDigitString(t) :: ParseNat(t)
  }

  /** `int(v) if v.isdigit() else None` (bot.py:30, 35) */
  function ParseOptionalId(raw: string): (r: Option<nat>)
    ensures r.Some? <==> IsDigitString(raw)
  {
    if IsDigitString(raw) then Some(ParseNat(raw)) else None
  }

  /** Python's `int(raw)` on a string: whitespace around the number is
      skipped (U+001C-U+001F are not, see `IntSpace`), then one optional sign,
      then decimal digits; anything else raises, modelled as `None`. */
  function ParseInt(raw: string): (r: Option<int>)
    ensures r.Some? <==> IsIntLiteral(Strip(IntSpace, raw))
  {
    ParseSigned(Strip(IntSpace, raw))
  }

  /** One optional sign, then at least one digit. */
  predicate IsIntLiteral(t: string) {
    IsDigitString(t) || (|t| > 0 && (t[0] == '+' || t[0] == '-') && IsDigitString(t[1..]))
  }

  /** `int` on a string without surrounding whitespace. */
  function ParseSigned(t: string): (r: Option<int>)
    ensures r.Some? <==> IsIntLiteral(t)
  {
    if |t| > 0 && (t[0] == '+' || t[0] == '-') then
      if IsDigitString(t[1..]) then
        var n: int := ParseNat(t[1..]);
        Some(if t[0] == '-' then -n else n)
      else None
    else if IsDigitString(t) then Some(ParseNat(t))
    else None
  }

  /** `str(i)` */
  function ShowInt(i: int): (t: string)
    ensures |t| > 0 && !IsSpace(t[0]) && !IsSpace(t[|t| - 1])
  {
    if i < 0 then "-" + ShowNat(-i) else ShowNat(i)
  }

  /** The settings read at start-up (bot.py:19-35). */
  datatype Settings = Settings(
    linkBlockingEnabled: bool,
    allowedChannels: set<nat>,
    allowedRoles: set<nat>,
    logChannelId: Option<nat>,
    autoDmOnBlock: bool,
    autoTimeoutMinutes: int,
    guildId: Option<nat>)

  /** Why the process does not start: `int()` of the timeout raises at import
      (bot.py:34), or the token is missing when run as a program (bot.py:273-274). */
  datatype StartupError = TimeoutNotAnInteger | MissingToken

  /** Loading the environment, in the order bot.py reads it. */
  function Load(env: Env): (r: Result<Settings, StartupError>)
    ensures r == Failure(TimeoutNotAnInteger) <==> ParseInt(GetEnv(env, "AUTO_TIMEOUT_MINUTES", "30")).None?
    ensures r == Failure(MissingToken) <==>
      ParseInt(GetEnv(env, "AUTO_TIMEOUT_MINUTES", "30")).Some? && GetEnv(env, "DISCORD_TOKEN", "") == ""
  {
    var minutes := ParseInt(GetEnv(env, "AUTO_TIMEOUT_MINUTES", "30"));
    if minutes.None? then Failure(TimeoutNotAnInteger)
    else if GetEnv(env, "DISCORD_TOKEN", "") == "" then Failure(MissingToken)
    else Success(Settings(
      linkBlockingEnabled := ParseFlag(GetEnv(env, "LINK_BLOCKING_ENABLED", "true")),
      allowedChannels := ToSet(GetEnv(env, "ALLOWED_CHANNEL_IDS", "")),
      allowedRoles := ToSet(GetEnv(env, "ALLOWED_ROLE_IDS", "")),
      logChannelId := ParseOptionalId(GetEnv(env, "LOG_CHANNEL_ID", "")),
      autoDmOnBlock := ParseFlag(GetEnv(env, "AUTO_DM_ON_BLOCK", "true")),
      autoTimeoutMinutes := minutes.value,
      guildId := ParseOptionalId(GetEnv(env, "GUILD_ID", ""))))
  }

  // ---------------------------------------------------------------------------
  // Properties

  /** Examples: three spellings of "true" turn a flag on, four other values
      leave it off. */
  lemma FlagExamples()
    ensures ParseFlag("true") && ParseFlag("TRUE") && ParseFlag("True")
    ensures !ParseFlag("1") && !ParseFlag("yes") && !ParseFlag(" true") && !ParseFlag("")
  {
  }

  /** An unset list variable gives the empty set. */
  lemma ToSetEmpty()
    ensures ToSet("") == {}
  {
    assert Tokens("") == [""];
  }

  /** `_to_set` of comma-joined tokens that hold no comma and no space keeps
      exactly the all-digit tokens, as integers; "-5", "12a" and "" are dropped. */
  lemma ToSetOfJoined(parts: seq<string>)
    requires |parts| >= 1
    requires forall i :: 0 <= i < |parts| ==> ',' !in parts[i] && ' ' !in parts[i]
    ensures ToSet(Join(parts, ',')) == set t | t in parts && IsDigitString(t) :: ParseNat(t)
  {
    JoinAvoids(parts, ',', ' ');
    SplitJoin(parts, ',');
  }

  /** A character in neither the parts nor the separator is not in the join. */
  lemma {:induction false} JoinAvoids(parts: seq<string>, sep: char, c: char)
    requires c != sep
    requires forall i :: 0 <= i < |parts| ==> c !in parts[i]
    ensures c !in Join(parts, sep)
  {
    if |parts| > 1 {
      JoinAvoids(parts[1..], sep, c);
    }
  }

  /** "-5", "12a" and the empty token are dropped; "12" and "7" are kept. */
  lemma ToSetDropsNonDigitTokens()
    ensures ToSet("12,-5,12a,,7") == {12, 7}
  {
    var parts := ["12", "-5", "12a", "", "7"];
    assert Join(parts, ',') == "12,-5,12a,,7";
    assert forall i :: 0 <= i < |parts| ==> ',' !in parts[i] && ' ' !in parts[i];
    ToSetOfJoined(parts);
    DigitTokensOfExample(parts);
  }

  lemma DigitTokensOfExample(parts: seq<string>)
    requires parts == ["12", "-5", "12a", "", "7"]
    ensures (set t | t in parts && IsDigitString(t) :: ParseNat(t)) == {12, 7}
  {
    var kept := set t | t in parts && IsDigitString(t) :: ParseNat(t);
    assert ParseNat("12") == 12 by {
      assert "12"[..1] == "1";
    }
    assert ParseNat("7") == 7;
    assert "-5"[0] == '-' && "12a"[2] == 'a';
    assert 12 in kept by {
      assert "12" in parts;
    }
    assert 7 in kept by {
      assert "7" in parts;
    }
    forall n | n in kept ensures n == 12 || n == 7 {
      var t :| t in parts && IsDigitString(t) && ParseNat(t) == n;
    }
  }

  /** Rendering IDs comma-separated and parsing them back gives their set. */
  lemma ToSetOfRendered(ids: seq<nat>)
    ensures ToSet(Join(seq(|ids|, i requires 0 <= i < |ids| => ShowNat(ids[i])), ',')) == set n | n in ids
  {
    var shown := seq(|ids|, i requires 0 <= i < |ids| => ShowNat(ids[i]));
    if |ids| == 0 {
      ToSetEmpty();
    } else {
      forall i | 0 <= i < |shown| ensures ',' !in shown[i] && ' ' !in shown[i] {
        assert IsDigitString(shown[i]);
      }
      ToSetOfJoined(shown);
      forall n | n in ids ensures n in ToSet(Join(shown, ',')) {
        var i :| 0 <= i < |ids| && ids[i] == n;
        ParseShowNat(n);
        assert shown[i] in shown;
      }
      forall n | n in ToSet(Join(shown, ',')) ensures n in ids {
        var i :| 0 <= i < |shown| && IsDigitString(shown[i]) && ParseNat(shown[i]) == n;
        ParseShowNat(ids[i]);
      }
    }
  }

  /** A value written with `str` reads back as the same optional ID. */
  lemma OptionalIdRoundTrip(n: nat)
    ensures ParseOptionalId(ShowNat(n)) == Some(n)
  {
    ParseShowNat(n);
  }

  /** `int(str(i)) == i`, also with whitespace that `int()` skips around the
      digits. */
  lemma ParseIntRoundTrip(a: string, i: int, b: string)
    requires AllSpace(IntSpace, a) && AllSpace(IntSpace, b)
    ensures ParseInt(a + ShowInt(i) + b) == Some(i)
  {
    StripPadded(IntSpace, a, ShowInt(i), b);
    ParseSignedShowInt(i);
  }

  /** `int()` does not skip U+001C, which `strip()` removes: "\x1c30" is not
      an integer, although it strips to "30". */
  lemma ParseIntKeepsSeparators()
    ensures Strip(StrSpace, "\U{1C}30") == "30"
    ensures ParseInt("\U{1C}30") == None
  {
    StripDropsSeparator();
    IntKeepsSeparator();
  }

  lemma IntKeepsSeparator()
    ensures ParseInt("\U{1C}30") == None
  {
    var t, e := "\U{1C}30", "";
    assert !IsBlank(IntSpace, t[0]) && !IsBlank(IntSpace, t[2]);
    assert e + t + e == t;
    StripPadded(IntSpace, e, t, e);
    assert t[0] != '+' && t[0] != '-' && !IsDigit(t[0]);
    assert !IsIntLiteral(t);
  }

  lemma StripDropsSeparator()
    ensures Strip(StrSpace, "\U{1C}30") == "30"
  {
    var a, t, e := "\U{1C}", "30", "";
    assert IsBlank(StrSpace, a[0]);
    assert !IsBlank(StrSpace, t[0]) && !IsBlank(StrSpace, t[1]);
    assert a + t + e == "\U{1C}30";
    StripPadded(StrSpace, a, t, e);
  }

  lemma ParseSignedShowInt(i: int)
    ensures ParseSigned(ShowInt(i)) == Some(i)
  {
    var t := ShowInt(i);
    if i < 0 {
      var digits := ShowNat(-i);
      assert t[1..] == digits;
      ParseShowNat(-i);
    } else {
      assert IsDigit(t[0]);
      ParseShowNat(i);
    }
  }

  lemma DefaultTimeout()
    ensures ParseInt("30") == Some(30)
  {
    assert "30" == "" + "30" + "";
    StripPadded(IntSpace, "", "30", "");
    assert "30"[..1] == "3" && "3"[..0] == "";
    assert "30"[0] == '3' && "30"[1] == '0';
    assert IsDigitString("30") && "30"[0] != '+' && "30"[0] != '-';
    assert ParseNat("30") == 30;
    assert ParseSigned("30") == Some(30);
  }

  /** With only the token set, every setting takes its documented default. */
  lemma LoadDefaults(env: Env)
    requires env.Keys == {"DISCORD_TOKEN"} && env["DISCORD_TOKEN"] != ""
    ensures Load(env) == Success(Settings(true, {}, {}, None, true, 30, None))
  {
    UnsetKey(env, "AUTO_TIMEOUT_MINUTES");
    UnsetKey(env, "LINK_BLOCKING_ENABLED");
    UnsetKey(env, "AUTO_DM_ON_BLOCK");
    UnsetKey(env, "ALLOWED_CHANNEL_IDS");
    UnsetKey(env, "ALLOWED_ROLE_IDS");
    UnsetKey(env, "LOG_CHANNEL_ID");
    UnsetKey(env, "GUILD_ID");
    DefaultTimeout();
    FlagExamples();
    ToSetEmpty();
  }

  lemma UnsetKey(env: Env, key: string)
    requires env.Keys == {"DISCORD_TOKEN"}
    requires |key| != |"DISCORD_TOKEN"|
    ensures key !in env
  {
  }
}
