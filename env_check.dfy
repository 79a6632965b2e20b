/**
 * The environment checker verify_env.py: it reads the `KEY=VALUE` lines of
 * `.env.local`, checks each required backend variable and each optional
 * frontend variable against its placeholder and format rules, and succeeds
 * exactly when every required variable is present and valid.
 *
 * The file arrives as its lines; reading it and printing the report are not
 * modelled, the report's content is returned instead.
 */
module EnvCheck {
  import opened Basics
  import opened Strings

  // ---------------------------------------------------------------------
  // Stripping (Python `str.strip`)

  /** Python's `str.isspace`: the characters `strip()` removes when given no argument. */
  predicate IsPySpace(c: char)
  {
    ('\t' <= c <= '\r') || ('\U{1C}' <= c <= ' ')
    || c == '\U{85}' || c == '\U{A0}' || c == '\U{1680}' || ('\U{2000}' <= c <= '\U{200A}')
    || c == '\U{2028}' || c == '\U{2029}' || c == '\U{202F}' || c == '\U{205F}' || c == '\U{3000}'
  }

  /** `s.strip(chars)` with the characters given by `drop`: both ends lose every such character. */
  function StripBy(s: string, drop: char -> bool): (r: string)
    ensures r != [] ==> !drop(r[0]) && !drop(r[|r| - 1])
    decreases |s|
  {
    if s != [] && drop(s[0]) then StripBy(s[1..], drop)
    else if s != [] && drop(s[|s| - 1]) then StripBy(s[..|s| - 1], drop)
    else s
  }

  /** What `strip` keeps is one piece of the text: nothing inside is removed or changed. */
  lemma {:induction false} StripBySlice(s: string, drop: char -> bool)
    ensures exists i, j :: 0 <= i <= j <= |s| && StripBy(s, drop) == s[i..j]
    decreases |s|
  {
    var r := StripBy(s, drop);
    if s != [] && drop(s[0]) {
      StripBySlice(s[1..], drop);
      var i, j :| 0 <= i <= j <= |s| - 1 && r == s[1..][i..j];
      assert r == s[i + 1..j + 1];
    } else if s != [] && drop(s[|s| - 1]) {
      StripBySlice(s[..|s| - 1], drop);
      var i, j :| 0 <= i <= j <= |s| - 1 && r == s[..|s| - 1][i..j];
      assert r == s[i..j];
    } else {
      assert r == s[0..|s|];
    }
  }

  function Strip(s: string): string { StripBy(s, IsPySpace) }

  /** Stripping adds no character. */
  lemma StripByKeepsOut(s: string, drop: char -> bool, c: char)
    requires c !in s
    ensures c !in StripBy(s, drop)
  {
    var r := StripBy(s, drop);
    StripBySlice(s, drop);
    var i, j :| 0 <= i <= j <= |s| && r == s[i..j];
    forall n | 0 <= n < |r| ensures r[n] != c { assert r[n] == s[i + n]; }
  }

  /** Text with nothing for `strip(drop)` to remove is left as it is. */
  lemma StripUntouched(s: string, drop: char -> bool)
    requires s == [] || (!drop(s[0]) && !drop(s[|s| - 1]))
    ensures StripBy(s, drop) == s
  {
  }

  // ---------------------------------------------------------------------
  // load_env_file (lines 71-91)

  /**
   * Lines 79-89 for one line: blank lines and comments give nothing, so do
   * lines without '='; otherwise the line splits at its first '=', the key
   * is stripped, and the value is stripped of white space, then of '"',
   * then of '\''.
   */
  function ParseLine(line: string): (r: Option<(string, string)>)
    ensures Strip(line) == [] || Strip(line)[0] == '#' || '=' !in Strip(line) ==> r.None?
    ensures r.Some? ==> '=' in Strip(line) && '=' !in r.value.0
  {
    var l := Strip(line);
    if l == [] || l[0] == '#' || '=' !in l then None
    else
      var k := IndexOf(l, '=');
      var key := Strip(l[..k]);
      StripByKeepsOut(l[..k], IsPySpace, '=');
      Some((key, StripBy(StripBy(Strip(l[k + 1..]), c => c == '"'), c => c == '\'')))
  }

  /** `env_vars` after the lines, in order: a later line for the same key overwrites the earlier one. */
  function LoadEnv(lines: seq<string>): (env: map<string, string>)
    decreases |lines|
  {
    if lines == [] then map[]
    else
      var env := LoadEnv(lines[..|lines| - 1]);
      var p := ParseLine(lines[|lines| - 1]);
      if p.Some? then env[p.value.0 := p.value.1] else env
  }

  /** `load_env_file` over the file's lines (an absent file gives no lines). */
  method LoadEnvFile(lines: seq<string>) returns (env: map<string, string>)
    ensures env == LoadEnv(lines)
  {
    env := map[];
    var i := 0;
    while i < |lines|
      invariant 0 <= i <= |lines|
      invariant env == LoadEnv(lines[..i])
    {
      assert lines[..i + 1][..i] == lines[..i];
      var p := ParseLine(lines[i]);
      if p.Some? {
        env := env[p.value.0 := p.value.1];
      }
      i := i + 1;
    }
    assert lines[..|lines|] == lines;
  }

  /**
   * A key is set exactly when some line defines it, and it holds the value
   * of the last line that does.
   */
  lemma {:induction false} LastLineWins(lines: seq<string>, key: string, i: nat)
    requires i < |lines| && ParseLine(lines[i]).Some? && ParseLine(lines[i]).value.0 == key
    requires forall j :: i < j < |lines| ==> ParseLine(lines[j]).None? || ParseLine(lines[j]).value.0 != key
    ensures key in LoadEnv(lines) && LoadEnv(lines)[key] == ParseLine(lines[i]).value.1
    decreases |lines|
  {
    if i < |lines| - 1 {
      var init := lines[..|lines| - 1];
      forall j | i < j < |init| ensures ParseLine(init[j]).None? || ParseLine(init[j]).value.0 != key {
        assert init[j] == lines[j];
      }
      assert init[i] == lines[i];
      LastLineWins(init, key, i);
    }
  }

  /** A key no line defines is not set. */
  lemma {:induction false} UndefinedKeyUnset(lines: seq<string>, key: string)
    requires forall j :: 0 <= j < |lines| ==> ParseLine(lines[j]).None? || ParseLine(lines[j]).value.0 != key
    ensures key !in LoadEnv(lines)
    decreases |lines|
  {
    if lines != [] {
      var init := lines[..|lines| - 1];
      forall j | 0 <= j < |init| ensures ParseLine(init[j]).None? || ParseLine(init[j]).value.0 != key {
        assert init[j] == lines[j];
      }
      UndefinedKeyUnset(init, key);
    }
  }

  /** A line that blanks to nothing or starts with '#' changes nothing. */
  lemma SkippedLineChangesNothing(lines: seq<string>, line: string)
    requires Strip(line) == [] || Strip(line)[0] == '#'
    ensures LoadEnv(lines + [line]) == LoadEnv(lines)
  {
    assert (lines + [line])[..|lines|] == lines;
  }

  /**
   * `KEY=VALUE` reads back as the pair: the line splits at the first '=',
   * so the value may itself contain '='.
   */
  lemma LineReadsBack(key: string, value: string)
    requires key != [] && key[0] != '#' && '=' !in key
    requires !IsPySpace(key[0]) && !IsPySpace(key[|key| - 1])
    requires value == [] || (!IsPySpace(value[0]) && !IsPySpace(value[|value| - 1])
                             && value[0] != '"' && value[|value| - 1] != '"' && value[0] != '\'' && value[|value| - 1] != '\'')
    ensures ParseLine(key + "=" + value) == Some((key, value))
  {
    var line := key + "=" + value;
    assert Strip(line) == line by {
      assert line[0] == key[0];
      assert line[|line| - 1] == if value == [] then '=' else value[|value| - 1];
      StripUntouched(line, IsPySpace);
    }
    var k := FirstSeparator(key, value);
    assert line[..k] == key && line[k + 1..] == value;
    StripUntouched(key, IsPySpace);
    assert StripBy(StripBy(Strip(value), c => c == '"'), c => c == '\'') == value by {
      StripUntouched(value, IsPySpace);
      StripUntouched(value, c => c == '"');
      StripUntouched(value, c => c == '\'');
    }
  }

  /** In `key=value` with no '=' in `key`, the first '=' is the one after the key. */
  lemma FirstSeparator(key: string, value: string) returns (k: nat)
    requires '=' !in key
    ensures '=' in key + "=" + value && k == IndexOf(key + "=" + value, '=') && k == |key|
  {
    var line := key + "=" + value;
    assert line[|key|] == '=';
    assert line[..|key|] == key;
    k := IndexOf(line, '=');
  }

  // ---------------------------------------------------------------------
  // validate_value (lines 93-110)

  const RequiredBackendVars: seq<string> :=
    ["SUPABASE_URL", "SUPABASE_SERVICE_ROLE_KEY", "TELEGRAM_BOT_TOKEN", "TELEGRAM_BOT_USERNAME", "MAKE_WEBHOOK_URL", "APP_BASE_URL"]

  const OptionalFrontendVars: seq<string> :=
    ["VITE_PAYMENTS_BASE_URL", "VITE_MAKE_WEBHOOK_URL", "VITE_TELEGRAM_BOT_USERNAME", "VITE_DEV_MODE", "VITE_ALLOW_NON_TELEGRAM"]

  const PlaceholderKeywords: seq<string> := ["your_", "Make.com Webhook URL", "your_value_here", "your_", "placeholder"]

  predicate IsAsciiLetterOrDigit(c: char) { 'a' <= c <= 'z' || 'A' <= c <= 'Z' || '0' <= c <= '9' }

  /** `[a-zA-Z0-9_-]`. */
  predicate IsTokenChar(c: char) { IsAsciiLetterOrDigit(c) || c == '_' || c == '-' }

  predicate AllOf(s: string, p: char -> bool) { forall i :: 0 <= i < |s| ==> p(s[i]) }

  /** Text a `$` can end at: all of it, or all but a last newline (no pattern here matches a newline). */
  function BeforeEnd(s: string): string
  {
    if s != [] && s[|s| - 1] == '\n' then s[..|s| - 1] else s
  }

  /** `^https://[a-zA-Z0-9-]+\.supabase\.co$`. */
  predicate SupabaseUrl(s: string)
  {
    var t := BeforeEnd(s);
    var host := "https://";
    var tail := ".supabase.co";
    |t| > |host| + |tail| && host <= t && t[|t| - |tail|..] == tail
    && AllOf(t[|host|..|t| - |tail|], c => IsAsciiLetterOrDigit(c) || c == '-')
  }

  /** `^eyJ[a-zA-Z0-9_-]+\.eyJ[a-zA-Z0-9_-]+\.[a-zA-Z0-9_-]+$`: three dot-separated runs, the first two after `eyJ`. */
  predicate JwtFormat(s: string)
  {
    var parts := Split(BeforeEnd(s), '.');
    |parts| == 3
    && |parts[0]| > 3 && "eyJ" <= parts[0] && AllOf(parts[0], IsTokenChar)
    && |parts[1]| > 3 && "eyJ" <= parts[1] && AllOf(parts[1], IsTokenChar)
    && |parts[2]| > 0 && AllOf(parts[2], IsTokenChar)
  }

  /** `^\d+:[a-zA-Z0-9_-]+$`, with `\d` read as the ASCII digits. */
  predicate BotTokenFormat(s: string)
  {
    var t := BeforeEnd(s);
    ':' in t
    && var k := IndexOf(t, ':');
    k > 0 && AllDigits(t[..k]) && k + 1 < |t| && AllOf(t[k + 1..], IsTokenChar)
  }

  /** `^@?[a-zA-Z0-9_]+$`. */
  predicate BotUsernameFormat(s: string)
  {
    var t := BeforeEnd(s);
    var name := if t != [] && t[0] == '@' then t[1..] else t;
    name != [] && AllOf(name, c => IsAsciiLetterOrDigit(c) || c == '_')
  }

  /** `^https?://.+` matched at the start: a scheme and at least one character that is not a newline. */
  predicate HttpUrlFormat(s: string)
  {
    var rest := if "https://" <= s then s[8..] else if "http://" <= s then s[7..] else [];
    ("https://" <= s || "http://" <= s) && rest != [] && rest[0] != '\n'
  }

  /** `^(https?://.+|/api|)$`. */
  predicate PaymentsBaseUrlFormat(s: string)
  {
    var t := BeforeEnd(s);
    t == "" || t == "/api" || (HttpUrlFormat(t) && '\n' !in t)
  }

  /** The rule of a variable: its check and the description its error names. */
  function Rule(key: string): Option<(string -> bool, string)>
  {
    if key == "SUPABASE_URL" then Some((SupabaseUrl, "应该是 Supabase 项目 URL，格式：https://xxx.supabase.co"))
    else if key == "SUPABASE_SERVICE_ROLE_KEY" then Some((JwtFormat, "应该是 JWT token 格式"))
    else if key == "TELEGRAM_BOT_TOKEN" then Some((BotTokenFormat, "应该是 Telegram Bot Token 格式：数字:字符串"))
    else if key == "TELEGRAM_BOT_USERNAME" then Some((BotUsernameFormat, "应该是 Bot 用户名，格式：@username 或 username"))
    else if key == "MAKE_WEBHOOK_URL" || key == "APP_BASE_URL" then Some((HttpUrlFormat, "应该是有效的 HTTP/HTTPS URL"))
    else if key == "VITE_PAYMENTS_BASE_URL" then Some((PaymentsBaseUrlFormat, "应该是完整的 URL 或相对路径 /api，或留空"))
    else None
  }

  predicate HasPlaceholder(value: string)
  {
    exists i :: 0 <= i < |PlaceholderKeywords| && Contains(value, PlaceholderKeywords[i])
  }

  /**
   * `validate_value(key, value)`: an empty value, a placeholder and a
   * format mismatch are each refused with their own message; everything
   * else is valid.
   */
  function ValidateValue(key: string, value: string): (r: (bool, string))
    ensures r.0 <==> value != "" && !HasPlaceholder(value) && (Rule(key).Some? ==> Rule(key).value.0(value))
    ensures value == "" ==> r == (false, "值为空")
    ensures value != "" && HasPlaceholder(value) ==> r == (false, "值为占位符，需要替换为实际值")
    ensures r.0 ==> r.1 == "有效"
  {
    if value == "" then (false, "值为空")
    else if HasPlaceholder(value) then (false, "值为占位符，需要替换为实际值")
    else if Rule(key).Some? && !Rule(key).value.0(value) then (false, "格式不正确：" + Rule(key).value.1)
    else (true, "有效")
  }

  // ---------------------------------------------------------------------
  // check_env_vars (lines 112-212)

  /** Lines 155-158: the value shown for a valid variable; keys and tokens show at most their first 10 characters. */
  function Display(key: string, value: string): (shown: string)
    ensures (Contains(key, "KEY") || Contains(key, "TOKEN")) && |value| > 10 ==>
      |shown| == 13 && shown[..10] == value[..10]
    ensures !(Contains(key, "KEY") || Contains(key, "TOKEN")) || |value| <= 10 ==> shown == value
  {
    if (Contains(key, "KEY") || Contains(key, "TOKEN")) && |value| > 10 then value[..10] + "..." else value
  }

  /** Lines 146-162 over the first of the required variables: one error per missing or invalid one, in order. */
  function BackendErrors(env: map<string, string>, vars: seq<string>): (errors: seq<string>)
    ensures |errors| <= |vars|
    decreases |vars|
  {
    if vars == [] then []
    else
      var prior := BackendErrors(env, vars[..|vars| - 1]);
      var v := vars[|vars| - 1];
      if v !in env then prior + [v + " 缺失"]
      else
        var (ok, message) := ValidateValue(v, env[v]);
        if ok then prior else prior + [v + " " + message]
  }

  /** No backend error exactly when every listed variable is set and valid. */
  lemma {:induction false} NoBackendErrorsIff(env: map<string, string>, vars: seq<string>)
    ensures BackendErrors(env, vars) == [] <==> forall i :: 0 <= i < |vars| ==> vars[i] in env && ValidateValue(vars[i], env[vars[i]]).0
    decreases |vars|
  {
    if vars != [] {
      var init := vars[..|vars| - 1];
      NoBackendErrorsIff(env, init);
      assert forall i :: 0 <= i < |init| ==> init[i] == vars[i];
    }
  }

  /** Lines 169-183: one warning per set, non-placeholder frontend variable that is invalid. */
  function FrontendWarnings(env: map<string, string>, vars: seq<string>): (warnings: seq<string>)
    ensures |warnings| <= |vars|
    decreases |vars|
  {
    if vars == [] then []
    else
      var prior := FrontendWarnings(env, vars[..|vars| - 1]);
      var v := vars[|vars| - 1];
      if v !in env || env[v] == "" || StartsWith(env[v], "your_") then prior
      else
        var (ok, message) := ValidateValue(v, env[v]);
        if ok then prior else prior + [v + " " + message]
  }

  /** The valid required variables with their shown values. */
  function Shown(env: map<string, string>, vars: seq<string>): (lines: seq<(string, string)>)
    decreases |vars|
  {
    if vars == [] then []
    else
      var prior := Shown(env, vars[..|vars| - 1]);
      var v := vars[|vars| - 1];
      if v in env && ValidateValue(v, env[v]).0 then prior + [(v, Display(v, env[v]))] else prior
  }

  function KnownVars(): set<string>
  {
    set i | 0 <= i < |RequiredBackendVars| + |OptionalFrontendVars| :: (RequiredBackendVars + OptionalFrontendVars)[i]
  }

  /** What the check reports besides its verdict. */
  datatype Report = Report(
    env: map<string, string>,
    shown: seq<(string, string)>,
    backendErrors: seq<string>,
    frontendWarnings: seq<string>,
    unknownVars: set<string>)

  /**
   * `check_env_vars()` for a `.env.local` with the given lines (`None` when
   * the file does not exist). It succeeds exactly when the file exists,
   * defines at least one variable, and every required variable is set and
   * valid; the frontend warnings never decide it.
   */
  method CheckEnvVars(file: Option<seq<string>>) returns (ok: bool, report: Option<Report>)
    ensures file.None? ==> !ok && report.None?
    ensures file.Some? ==> report.Some? && report.value.env == LoadEnv(file.value)
    ensures file.Some? && LoadEnv(file.value) == map[] ==> !ok
    ensures report.Some? && report.value.env != map[] ==>
      var env := report.value.env;
      report.value.backendErrors == BackendErrors(env, RequiredBackendVars)
      && report.value.frontendWarnings == FrontendWarnings(env, OptionalFrontendVars)
      && report.value.shown == Shown(env, RequiredBackendVars)
      && report.value.unknownVars == env.Keys - KnownVars()
    ensures ok <==> file.Some? && LoadEnv(file.value) != map[]
                    && forall i :: 0 <= i < |RequiredBackendVars| ==>
                         RequiredBackendVars[i] in LoadEnv(file.value)
                         && ValidateValue(RequiredBackendVars[i], LoadEnv(file.value)[RequiredBackendVars[i]]).0
  {
    if file.None? {
      return false, None;
    }
    var env := LoadEnvFile(file.value);
    if env == map[] {
      return false, Some(Report(env, [], [], [], {}));
    }
    var shown: seq<(string, string)> := [];
    var backendErrors: seq<string> := [];
    var i := 0;
    while i < |RequiredBackendVars|
      invariant 0 <= i <= |RequiredBackendVars|
      invariant backendErrors == BackendErrors(env, RequiredBackendVars[..i])
      invariant shown == Shown(env, RequiredBackendVars[..i])
    {
      var v := RequiredBackendVars[i];
      assert RequiredBackendVars[..i + 1][..i] == RequiredBackendVars[..i];
      if v !in env {
        backendErrors := backendErrors + [v + " 缺失"];
      } else {
        var value := env[v];
        var (isValid, message) := ValidateValue(v, value);
        if isValid {
          shown := shown + [(v, Display(v, value))];
        } else {
          backendErrors := backendErrors + [v + " " + message];
        }
      }
      i := i + 1;
    }
    assert RequiredBackendVars[..i] == RequiredBackendVars;
    var frontendWarnings: seq<string> := [];
    var j := 0;
    while j < |OptionalFrontendVars|
      invariant 0 <= j <= |OptionalFrontendVars|
      invariant frontendWarnings == FrontendWarnings(env, OptionalFrontendVars[..j])
    {
      var v := OptionalFrontendVars[j];
      assert OptionalFrontendVars[..j + 1][..j] == OptionalFrontendVars[..j];
      if v in env {
        var value := env[v];
        if !(value == "" || StartsWith(value, "your_")) {
          var (isValid, message) := ValidateValue(v, value);
          if !isValid {
            frontendWarnings := frontendWarnings + [v + " " + message];
          }
        }
      }
      j := j + 1;
    }
    assert OptionalFrontendVars[..j] == OptionalFrontendVars;
    var unknownVars := env.Keys - KnownVars();
    NoBackendErrorsIff(env, RequiredBackendVars);
    ok := backendErrors == [];
    report := Some(Report(env, shown, backendErrors, frontendWarnings, unknownVars));
  }

  /**
   * The frontend variables never decide the verdict: two files whose
   * variables agree on the required ones give the same result.
   */
  lemma FrontendNeverDecides(a: map<string, string>, b: map<string, string>)
    requires forall v :: v in RequiredBackendVars ==> (v in a <==> v in b) && (v in a ==> a[v] == b[v])
    ensures BackendErrors(a, RequiredBackendVars) == [] <==> BackendErrors(b, RequiredBackendVars) == []
  {
    NoBackendErrorsIff(a, RequiredBackendVars);
    NoBackendErrorsIff(b, RequiredBackendVars);
    assert forall i :: 0 <= i < |RequiredBackendVars| ==> RequiredBackendVars[i] in RequiredBackendVars;
  }

  /** A placeholder value of a required variable is always an error, whatever its format. */
  lemma PlaceholderIsError(env: map<string, string>, i: nat)
    requires i < |RequiredBackendVars| && RequiredBackendVars[i] in env
    requires HasPlaceholder(env[RequiredBackendVars[i]])
    ensures BackendErrors(env, RequiredBackendVars) != []
  {
    NoBackendErrorsIff(env, RequiredBackendVars);
  }
}
