/**
  The environment overlay, `ConfigManager._load_env_vars`
  (dataprowler/core/config.py:92-126). Every variable whose name starts with
  `DATAPROWLER_` is turned into a nested path (the rest of the name, lower-cased
  and split on `_`) and a value coerced from its text, and the value is
  assigned at that path, creating missing intermediate mappings. The process
  environment is a parameter: a sequence of (name, value) pairs in iteration
  order.
*/
module EnvOverlay {
  import opened Values
  import opened Strings
  import opened Paths

  const Prefix: string := "DATAPROWLER_"

  type Environment = seq<(string, string)>

  /** `key.startswith(prefix)`. */
  predicate IsOverlayName(name: string)
  {
    |Prefix| <= |name| && name[..|Prefix|] == Prefix
  }

  /** The coercion of a variable's text: an integer, else a boolean, else a float, else the text. */
  function Coerce(s: string): (v: Value)
    ensures v.Int? <==> AllDigits(s)
    ensures v.Str? ==> v.s == s
    ensures v.Float? ==> v.text == s
  {
    if AllDigits(s) then Int(DecimalValue(s))
    else if Lower(s) == "true" || Lower(s) == "false" then Bool(Lower(s) == "true")
    else if AllDigits(Remove(s, '.')) && Count(s, '.') == 1 then Float(s)
    else Str(s)
  }

  /** The kinds of value a coercion can produce. */
  predicate Scalar(v: Value)
  {
    v.Int? || v.Bool? || v.Float? || v.Str?
  }

  /** A text that coerces back to `v`: the decimal numeral of an integer, `true` or `false`,
      and the kept text of a float or a string. Unlike `str(float(t))` it does not normalise a
      float's text. */
  function Render(v: Value): (s: string)
    requires Scalar(v)
    ensures v.Str? ==> s == v.s
    ensures v.Float? ==> s == v.text
  {
    match v
    case Int(i) => if i >= 0 then Decimal(i) else "-" + Decimal(-i)
    case Bool(b) => if b then "true" else "false"
    case Float(t) => t
    case Str(s) => s
  }

  /** A decimal with a point: exactly one `.`, every other character a digit, and at least one
      digit in all (`"1."` and `".5"` qualify, `"."` does not). */
  predicate PointNumeral(s: string)
  {
    |s| >= 2 && exists k :: 0 <= k < |s| && s[k] == '.' && forall i :: 0 <= i < |s| && i != k ==> IsDigit(s[i])
  }

  /** The coercion table: which texts land in which kind, and with what. Digits give their
      number, the two boolean words in any letter case give booleans, point numerals give
      floats, and every other text is kept as it is. */
  lemma CoerceTable(s: string)
    ensures Scalar(Coerce(s))
    ensures Coerce(s).Int? ==> Coerce(s).i == DecimalValue(s)
    ensures Coerce(s).Bool? <==> Lower(s) == "true" || Lower(s) == "false"
    ensures Coerce(s).Bool? ==> Lower(s) == (if Coerce(s).b then "true" else "false")
    ensures Coerce(s).Float? <==> PointNumeral(s)
    ensures Coerce(s).Str? <==> !AllDigits(s) && Lower(s) != "true" && Lower(s) != "false" && !PointNumeral(s)
  {
    if Lower(s) == "true" || Lower(s) == "false" {
      LowerWord(s, Lower(s));
    }
    CoerceFloatIff(s);
  }

  lemma CoerceFloatIff(s: string)
    ensures Coerce(s).Float? <==> PointNumeral(s)
  {
    if Coerce(s).Float? {
      PointFromRemove(s);
    }
    if PointNumeral(s) {
      CoercePoint(s);
    }
  }

  /** Every point numeral becomes a float. */
  lemma CoercePoint(s: string)
    requires PointNumeral(s)
    ensures Coerce(s) == Float(s)
  {
    var k :| 0 <= k < |s| && s[k] == '.' && forall i :: 0 <= i < |s| && i != k ==> IsDigit(s[i]);
    var a, b := s[..k], s[k + 1..];
    assert s == a + "." + b;
    assert forall i :: 0 <= i < |b| ==> b[i] == s[k + 1 + i];
    CoerceFloatWhen(a, b);
  }

  /** The float test of the coercion, one `.` and digits once it is removed, picks out exactly
      the point numerals. */
  lemma {:induction false} PointFromRemove(s: string)
    requires Count(s, '.') == 1 && AllDigits(Remove(s, '.'))
    ensures PointNumeral(s)
  {
    var r := Remove(s, '.');
    if s[0] == '.' {
      assert '.' !in s[1..] by {
        if '.' in s[1..] {
          var j :| 0 <= j < |s[1..]| && s[1..][j] == '.';
          CountPositive(s[1..], j);
        }
      }
      RemoveAbsent(s[1..], '.');
      assert r == s[1..];
      forall i | 0 <= i < |s| && i != 0 ensures IsDigit(s[i]) {
        assert s[i] == r[i - 1];
      }
      assert s[0] == '.';
    } else {
      var t := s[1..];
      assert r == [s[0]] + Remove(t, '.');
      assert IsDigit(s[0]) by { assert r[0] == s[0]; }
      if |r| == 1 {
        assert Remove(t, '.') == "";
        assert |t| == 1;
        assert t[0] == '.';
        assert s[1] == '.';
        forall i | 0 <= i < |s| && i != 1 ensures IsDigit(s[i]) {
          assert i == 0;
        }
      } else {
        assert Remove(t, '.') == r[1..];
        PointFromRemove(t);
        var k :| 0 <= k < |t| && t[k] == '.' && forall i :: 0 <= i < |t| && i != k ==> IsDigit(t[i]);
        assert s[k + 1] == '.';
        forall i | 0 <= i < |s| && i != k + 1 ensures IsDigit(s[i]) {
          if i > 0 {
            assert s[i] == t[i - 1];
            assert IsDigit(t[i - 1]);
          }
        }
      }
    }
  }

  /** A character that occurs is counted. */
  lemma {:induction false} CountPositive(s: string, j: int)
    requires 0 <= j < |s|
    ensures Count(s, s[j]) >= 1
  {
    if j > 0 {
      CountPositive(s[1..], j - 1);
    }
  }

  lemma LowerWord(s: string, w: string)
    requires Lower(s) == w && |w| > 0 && !IsDigit(w[0])
    ensures !AllDigits(s)
  {
    assert LowerChar(s[0]) == w[0];
  }

  /** Writing a coerced value back and coercing the text again gives the same value. */
  lemma {:induction false} CoerceRender(s: string)
    ensures Coerce(Render(Coerce(s))) == Coerce(s)
  {
    var v := Coerce(s);
    if v.Int? {
      DecimalRoundTrip(v.i);
    } else if v.Bool? {
      var t := Render(v);
      assert Lower(t) == t;
      LowerWord(t, t);
    }
  }

  /** A decimal numeral becomes the number it denotes. */
  lemma CoerceDecimal(n: nat)
    ensures Coerce(Decimal(n)) == Int(n)
  {
    DecimalRoundTrip(n);
  }

  /** `"true"` and `"false"`, in any letter case, become booleans. */
  lemma CoerceBool(s: string)
    requires Lower(s) == "true" || Lower(s) == "false"
    ensures Coerce(s) == Bool(Lower(s) == "true")
  {
    LowerWord(s, Lower(s));
  }

  /** Runs of digits become integers, leading zeros dropped. */
  lemma CoerceIntExamples()
    ensures Coerce("30") == Int(30)
    ensures Coerce("007") == Int(7)
  {
    assert DecimalValue("30") == 30 by { assert "30"[..1] == "3"; }
    assert DecimalValue("007") == 7 by { assert "007"[..2] == "00"; assert "00"[..1] == "0"; }
  }

  lemma CoerceBoolExamples()
    ensures Coerce("FALSE") == Bool(false)
    ensures Coerce("True") == Bool(true)
  {
    assert Lower("FALSE") == "false";
    assert Lower("True") == "true";
    CoerceBool("FALSE");
    CoerceBool("True");
  }

  /** One dot and digits elsewhere make a float, even with nothing on one side of the dot. */
  lemma CoerceFloatExamples()
    ensures Coerce("1.5") == Float("1.5")
    ensures Coerce("1.") == Float("1.")
    ensures Coerce(".5") == Float(".5")
  {
    CoerceFloatWhen("1", "5");
    assert "1" + "." + "5" == "1.5";
    CoerceFloatWhen("1", "");
    assert "1" + "." + "" == "1.";
    CoerceFloatWhen("", "5");
    assert "" + "." + "5" == ".5";
  }

  /** Digits, one dot, digits, with at least one digit in all, make a float. */
  lemma CoerceFloatWhen(a: string, b: string)
    requires |a + b| > 0
    requires forall i :: 0 <= i < |a| ==> IsDigit(a[i])
    requires forall i :: 0 <= i < |b| ==> IsDigit(b[i])
    ensures Coerce(a + "." + b) == Float(a + "." + b)
  {
    var s := a + "." + b;
    RemoveDigits(a, b);
    CountDigits(a, b);
    assert s[|a|] == '.';
    assert !AllDigits(s);
    assert Lower(s)[|a|] == '.';
  }

  lemma {:induction false} RemoveDigits(a: string, b: string)
    requires forall i :: 0 <= i < |a| ==> IsDigit(a[i])
    requires forall i :: 0 <= i < |b| ==> IsDigit(b[i])
    ensures Remove(a + "." + b, '.') == a + b
  {
    if |a| == 0 {
      assert ("." + b)[1..] == b;
      RemoveNone(b);
    } else {
      assert (a + "." + b)[1..] == a[1..] + "." + b;
      RemoveDigits(a[1..], b);
      assert [a[0]] + (a[1..] + b) == a + b;
    }
  }

  lemma {:induction false} RemoveNone(b: string)
    requires forall i :: 0 <= i < |b| ==> IsDigit(b[i])
    ensures Remove(b, '.') == b && Count(b, '.') == 0
  {
    if |b| > 0 {
      RemoveNone(b[1..]);
      assert [b[0]] + b[1..] == b;
    }
  }

  lemma {:induction false} CountDigits(a: string, b: string)
    requires forall i :: 0 <= i < |a| ==> IsDigit(a[i])
    requires forall i :: 0 <= i < |b| ==> IsDigit(b[i])
    ensures Count(a + "." + b, '.') == 1
  {
    if |a| == 0 {
      assert ("." + b)[1..] == b;
      RemoveNone(b);
    } else {
      assert (a + "." + b)[1..] == a[1..] + "." + b;
      CountDigits(a[1..], b);
    }
  }

  /** A text that starts with neither a digit, a dot, nor the first letter of a boolean word
      stays a string. */
  lemma CoerceStrWhen(s: string)
    requires |s| > 0 && !IsDigit(s[0]) && s[0] != '.'
    requires LowerChar(s[0]) != 't' && LowerChar(s[0]) != 'f'
    ensures Coerce(s) == Str(s)
  {
    assert Remove(s, '.')[0] == s[0];
    assert Lower(s)[0] == LowerChar(s[0]);
  }

  /** A text that is neither digits, a boolean word nor a one-dot number stays a string. */
  lemma CoerceStrExamples()
    ensures Coerce("") == Str("")
    ensures Coerce("-5") == Str("-5")
    ensures Coerce("1.2.3") == Str("1.2.3")
    ensures Coerce(".") == Str(".")
    ensures Coerce("yes") == Str("yes")
  {
    CoerceStrWhen("-5");
    CoerceStrWhen("yes");
    CoerceTwoDots();
    CoerceBareDot();
  }

  lemma CoerceTwoDots()
    ensures Coerce("1.2.3") == Str("1.2.3")
  {
    var s := "1.2.3";
    assert s[1..] == ".2.3" && s[1..][1..] == "2.3" && s[1..][1..][1..] == ".3";
    assert Count(".3", '.') == 1 by { assert ".3"[1..] == "3"; }
    assert Count(s, '.') == 2;
    assert !AllDigits(s) by { assert !IsDigit(s[1]); }
    assert Lower(s)[0] == '1';
  }

  lemma CoerceBareDot()
    ensures Coerce(".") == Str(".")
    ensures Coerce("") == Str("")
  {
    assert Remove(".", '.') == "" by { assert "."[1..] == ""; }
    assert Lower(".")[0] == '.';
    assert Lower("") == "";
  }

  /** The nested path a variable name denotes. */
  function KeyPath(name: string): (p: Path)
    requires IsOverlayName(name)
    ensures |p| >= 1
    ensures forall i :: 0 <= i < |p| ==> '_' !in p[i]
    ensures Join(p, '_') == Lower(name[|Prefix|..])
  {
    Split(Lower(name[|Prefix|..]), '_')
  }

  function UpperChar(c: char): char
  {
    if 'a' <= c <= 'z' then (c as int - 'a' as int + 'A' as int) as char else c
  }

  function Upper(s: string): (r: string)
    ensures |r| == |s|
    ensures forall i :: 0 <= i < |s| ==> r[i] == UpperChar(s[i])
  {
    seq(|s|, i requires 0 <= i < |s| => UpperChar(s[i]))
  }

  /** No upper-case ASCII letter in `s`. */
  predicate LowerCase(s: string)
  {
    forall i :: 0 <= i < |s| ==> !('A' <= s[i] <= 'Z')
  }

  /** The variable name that addresses a path: the prefix, then the upper-cased joined path. */
  function EnvName(p: Path): (name: string)
    ensures IsOverlayName(name)
  {
    var name := Prefix + Upper(Join(p, '_'));
    assert name[..|Prefix|] == Prefix;
    name
  }

  lemma {:induction false} JoinLowerCase(p: Path, sep: char)
    requires !('A' <= sep <= 'Z')
    requires forall i :: 0 <= i < |p| ==> LowerCase(p[i])
    ensures LowerCase(Join(p, sep))
  {
    if |p| > 1 {
      JoinLowerCase(p[1..], sep);
    }
  }

  /** The name built for a path of lower-case, underscore-free segments reads back as that path. */
  lemma KeyPathEnvName(p: Path)
    requires |p| >= 1
    requires forall i :: 0 <= i < |p| ==> '_' !in p[i] && LowerCase(p[i])
    ensures KeyPath(EnvName(p)) == p
  {
    var j := Join(p, '_');
    JoinLowerCase(p, '_');
    var name := EnvName(p);
    assert name[|Prefix|..] == Upper(j);
    assert Lower(Upper(j)) == j;
    SplitJoin(p, '_');
  }

  /** Names that agree after lower-casing denote the same path: letter case in a name is lost. */
  lemma KeyPathIgnoresCase(a: string, b: string)
    requires IsOverlayName(a) && IsOverlayName(b)
    requires Lower(a[|Prefix|..]) == Lower(b[|Prefix|..])
    ensures KeyPath(a) == KeyPath(b)
  {
  }

  /** The documented example name. */
  lemma KeyPathScraping()
    ensures KeyPath("DATAPROWLER_SCRAPING_TIMEOUT") == ["scraping", "timeout"]
  {
    assert "DATAPROWLER_SCRAPING_TIMEOUT"[|Prefix|..] == "SCRAPING_TIMEOUT";
    assert Lower("SCRAPING_TIMEOUT") == Join(["scraping", "timeout"], '_');
    SplitJoin(["scraping", "timeout"], '_');
  }

  /** Underscores inside a segment cannot be told from separators: the names for `a.b_c` and
      `a.b.c` coincide, and the name denotes `a.b.c`. */
  lemma KeyPathCollision()
    ensures EnvName(["a", "b_c"]) == EnvName(["a", "b", "c"])
    ensures KeyPath("DATAPROWLER_A_B_C") == ["a", "b", "c"]
  {
    assert Join(["a", "b_c"], '_') == Join(["a", "b", "c"], '_');
    assert "DATAPROWLER_A_B_C"[|Prefix|..] == "A_B_C";
    assert Lower("A_B_C") == Join(["a", "b", "c"], '_');
    SplitJoin(["a", "b", "c"], '_');
  }

  /** The variable that names the user file is not set apart: it denotes the top-level key
      `config`. A bare prefix denotes the empty key. */
  lemma KeyPathConfig()
    ensures KeyPath("DATAPROWLER_CONFIG") == ["config"]
    ensures KeyPath("DATAPROWLER_") == [""]
  {
    assert "DATAPROWLER_CONFIG"[|Prefix|..] == "CONFIG";
    assert Lower("CONFIG") == "config";
    SplitNoSep("config", '_');
    assert "DATAPROWLER_"[|Prefix|..] == "";
  }

  /** The assignments the overlay performs, in environment order. */
  function EnvWrites(env: Environment): (w: seq<(Path, Value)>)
    ensures NonEmptyPaths(w)
    ensures |w| <= |env|
    ensures forall j :: 0 <= j < |w| ==> Scalar(w[j].1)
  {
    if |env| == 0 then []
    else
      var rest := EnvWrites(env[1..]);
      if IsOverlayName(env[0].0) then
        CoerceTable(env[0].1);
        [(KeyPath(env[0].0), Coerce(env[0].1))] + rest
      else rest
  }

  lemma {:induction false} EnvWritesAppend(a: Environment, b: Environment)
    ensures EnvWrites(a + b) == EnvWrites(a) + EnvWrites(b)
  {
    if |a| == 0 {
      assert a + b == b;
    } else {
      assert (a + b)[1..] == a[1..] + b;
      EnvWritesAppend(a[1..], b);
    }
  }

  /** No variable of the environment is named with the prefix. */
  predicate NoOverlayNames(env: Environment)
  {
    forall i :: 0 <= i < |env| ==> !IsOverlayName(env[i].0)
  }

  /** The assignments stay clear of `q` when every prefixed variable's path does. */
  lemma {:induction false} EnvWritesAvoid(env: Environment, q: Path)
    requires forall i :: 0 <= i < |env| && IsOverlayName(env[i].0) ==>
               !(KeyPath(env[i].0) <= q) && !(q < KeyPath(env[i].0))
    ensures forall j :: 0 <= j < |EnvWrites(env)| ==> !(EnvWrites(env)[j].0 <= q) && !(q < EnvWrites(env)[j].0)
  {
    if |env| > 0 {
      assert forall i :: 0 <= i < |env| - 1 ==> env[1..][i] == env[i + 1];
      EnvWritesAvoid(env[1..], q);
    }
  }

  /** Every assignment comes from a prefixed variable, whose path extends any failing prefix. */
  lemma {:induction false} EnvWritesOrigin(env: Environment, j: int)
    requires 0 <= j < |EnvWrites(env)|
    ensures exists i :: 0 <= i < |env| && IsOverlayName(env[i].0) && EnvWrites(env)[j].0 == KeyPath(env[i].0)
  {
    var w := EnvWrites(env);
    if IsOverlayName(env[0].0) && j == 0 {
      assert w[0].0 == KeyPath(env[0].0);
    } else {
      var j' := if IsOverlayName(env[0].0) then j - 1 else j;
      assert w[j] == EnvWrites(env[1..])[j'];
      EnvWritesOrigin(env[1..], j');
      var i :| 0 <= i < |env[1..]| && IsOverlayName(env[1..][i].0) && EnvWrites(env[1..])[j'].0 == KeyPath(env[1..][i].0);
      assert env[1..][i] == env[i + 1];
    }
  }

  /** `_load_env_vars(config)`: the assignments of every prefixed variable, in order. Python
      raises a TypeError when a prefix of some variable's path holds a non-mapping. */
  function LoadEnvVars(config: Entries, env: Environment): (r: Result<Entries, PathError>)
    ensures NoOverlayNames(env) ==> r == Ok(config)
    ensures r.Err? ==> exists i :: 0 <= i < |env| && IsOverlayName(env[i].0) && r.error.at < KeyPath(env[i].0)
  {
    var w := EnvWrites(env);
    var r := SetAll(config, w);
    assert NoOverlayNames(env) ==> |w| == 0 by {
      if NoOverlayNames(env) && |w| > 0 {
        EnvWritesOrigin(env, 0);
      }
    }
    assert r.Err? ==> exists i :: 0 <= i < |env| && IsOverlayName(env[i].0) && r.error.at < KeyPath(env[i].0) by {
      if r.Err? {
        var j :| 0 <= j < |w| && r.error.at < w[j].0;
        EnvWritesOrigin(env, j);
      }
    }
    r
  }

  /** Each assignment is the one of some prefixed variable, and the variables before that one
      make exactly the assignments before it. */
  lemma {:induction false} EnvWritesAt(env: Environment, j: int)
    requires 0 <= j < |EnvWrites(env)|
    ensures exists i :: 0 <= i < |env| && IsOverlayName(env[i].0) && EnvWrites(env[..i]) == EnvWrites(env)[..j]
              && EnvWrites(env)[j] == (KeyPath(env[i].0), Coerce(env[i].1))
  {
    var w := EnvWrites(env);
    var first, t := env[..1], env[1..];
    var head := EnvWrites(first);
    assert env == first + t;
    EnvWritesAppend(first, t);
    assert first[1..] == [];
    if j < |head| {
      assert env[..0] == [];
    } else {
      var j' := j - |head|;
      EnvWritesAt(t, j');
      var i :| 0 <= i < |t| && IsOverlayName(t[i].0) && EnvWrites(t[..i]) == EnvWrites(t)[..j']
        && EnvWrites(t)[j'] == (KeyPath(t[i].0), Coerce(t[i].1));
      assert t[i] == env[i + 1];
      assert env[..i + 1] == first + t[..i];
      EnvWritesAppend(first, t[..i]);
      assert w[..j] == head + EnvWrites(t)[..j'];
    }
  }

  /** Why the overlay fails: some prefixed variable finds, in the configuration the variables
      before it left, a non-mapping on a proper prefix of its path, and that prefix is reported. */
  lemma LoadEnvVarsFails(config: Entries, env: Environment)
    requires LoadEnvVars(config, env).Err?
    ensures exists i :: 0 <= i < |env| && IsOverlayName(env[i].0) && LoadEnvVars(config, env[..i]).Ok?
              && Blocked(LoadEnvVars(config, env[..i]).value, LoadEnvVars(config, env).error.at)
              && LoadEnvVars(config, env).error.at < KeyPath(env[i].0)
  {
    var w := EnvWrites(env);
    assert w[..|w|] == w;
    SetAllFails(config, w, |w|);
    var at := LoadEnvVars(config, env).error.at;
    var j :| 0 <= j < |w| && SetAll(config, w[..j]).Ok? && Blocked(SetAll(config, w[..j]).value, at)
      && 1 <= |at| && at < w[j].0;
    EnvWritesAt(env, j);
    var i :| 0 <= i < |env| && IsOverlayName(env[i].0) && EnvWrites(env[..i]) == w[..j]
      && w[j] == (KeyPath(env[i].0), Coerce(env[i].1));
    assert LoadEnvVars(config, env[..i]) == SetAll(config, w[..j]);
  }

  /** A sufficient condition for the overlay to succeed: no prefixed variable's path is a proper
      prefix of another's, and none runs through a non-mapping of the configuration. */
  lemma LoadEnvVarsOkWhen(config: Entries, env: Environment)
    requires forall i, j :: 0 <= i < |env| && 0 <= j < |env| && IsOverlayName(env[i].0) && IsOverlayName(env[j].0) ==>
               !(KeyPath(env[i].0) < KeyPath(env[j].0))
    requires forall i :: 0 <= i < |env| && IsOverlayName(env[i].0) ==> Open(config, KeyPath(env[i].0))
    ensures LoadEnvVars(config, env).Ok?
  {
    var w := EnvWrites(env);
    forall j, k | 0 <= j < |w| && 0 <= k < |w| ensures !(w[j].0 < w[k].0) {
      EnvWritesOrigin(env, j);
      EnvWritesOrigin(env, k);
    }
    forall j | 0 <= j < |w| ensures Open(config, w[j].0) {
      EnvWritesOrigin(env, j);
    }
    SetAllOkWhen(config, w);
  }

  /** The environment wins: a prefixed variable that no later prefixed variable lies on one line
      with leaves its coerced value at its path, whatever the configuration held there. */
  lemma LoadEnvVarsWins(config: Entries, env: Environment, i: int)
    requires LoadEnvVars(config, env).Ok?
    requires 0 <= i < |env| && IsOverlayName(env[i].0)
    requires forall j :: i < j < |env| && IsOverlayName(env[j].0) ==>
               !Comparable(KeyPath(env[j].0), KeyPath(env[i].0))
    ensures Walk(Dict(LoadEnvVars(config, env).value), KeyPath(env[i].0)) == Some(Coerce(env[i].1))
  {
    var p := KeyPath(env[i].0);
    var b := env[i + 1..];
    EnvWritesSplit(env, i);
    var wa := EnvWrites(env[..i + 1]);
    SetAllAppend(config, wa, EnvWrites(b));
    forall j | 0 <= j < |b| && IsOverlayName(b[j].0) ensures !(KeyPath(b[j].0) <= p) && !(p < KeyPath(b[j].0)) {
      assert b[j] == env[i + 1 + j];
    }
    EnvWritesAvoid(b, p);
    SetAllFrame(SetAll(config, wa).value, EnvWrites(b), p);
  }

  /** The writes up to and including a prefixed variable end with that variable's write. */
  lemma EnvWritesSplit(env: Environment, i: int)
    requires 0 <= i < |env| && IsOverlayName(env[i].0)
    ensures EnvWrites(env) == EnvWrites(env[..i + 1]) + EnvWrites(env[i + 1..])
    ensures var wa := EnvWrites(env[..i + 1]);
      |wa| > 0 && wa[|wa| - 1] == (KeyPath(env[i].0), Coerce(env[i].1))
  {
    var a := env[..i + 1];
    assert env == a + env[i + 1..];
    EnvWritesAppend(a, env[i + 1..]);
    assert a == env[..i] + [env[i]];
    EnvWritesAppend(env[..i], [env[i]]);
  }

  /** Nothing else changes: a location that no prefixed variable's path lies on or below reads
      the same after the overlay. */
  lemma LoadEnvVarsFrame(config: Entries, env: Environment, q: Path)
    requires LoadEnvVars(config, env).Ok?
    requires forall i :: 0 <= i < |env| && IsOverlayName(env[i].0) ==>
               !(KeyPath(env[i].0) <= q) && !(q < KeyPath(env[i].0))
    ensures Walk(Dict(LoadEnvVars(config, env).value), q) == Walk(Dict(config), q)
  {
    EnvWritesAvoid(env, q);
    SetAllFrame(config, EnvWrites(env), q);
  }

  /** The overlay keeps every mapping free of repeated keys. */
  lemma LoadEnvVarsWellFormed(config: Entries, env: Environment)
    requires LoadEnvVars(config, env).Ok? && WellFormed(Dict(config))
    ensures WellFormed(Dict(LoadEnvVars(config, env).value))
  {
    SetAllWellFormed(config, EnvWrites(env));
  }

  /** The documented example: `DATAPROWLER_SCRAPING_TIMEOUT=30` gives `{"scraping": {"timeout": 30}}`. */
  lemma LoadEnvVarsScraping()
    ensures LoadEnvVars([], [("DATAPROWLER_SCRAPING_TIMEOUT", "30")])
         == Ok([("scraping", Dict([("timeout", Int(30))]))])
  {
    var n := "DATAPROWLER_SCRAPING_TIMEOUT";
    KeyPathScraping();
    CoerceIntExamples();
    assert EnvWrites([(n, "30")]) == [(["scraping", "timeout"], Int(30))];
    SetPathEmpty(["scraping", "timeout"], Int(30));
    assert ["scraping", "timeout"][1..] == ["timeout"];
  }

  /** `DATAPROWLER_CACHE_ENABLED=false` gives a boolean; variables without the prefix are ignored. */
  lemma LoadEnvVarsCache()
    ensures LoadEnvVars([], [("DATAPROWLER_CACHE_ENABLED", "false"), ("HOME", "/root")])
         == Ok([("cache", Dict([("enabled", Bool(false))]))])
  {
    var n := "DATAPROWLER_CACHE_ENABLED";
    assert n[|Prefix|..] == "CACHE_ENABLED";
    assert Lower("CACHE_ENABLED") == Join(["cache", "enabled"], '_');
    SplitJoin(["cache", "enabled"], '_');
    assert Lower("false") == "false";
    CoerceBool("false");
    var env := [(n, "false"), ("HOME", "/root")];
    assert env[1..] == [("HOME", "/root")];
    assert EnvWrites(env[1..]) == [];
    assert EnvWrites(env) == [(["cache", "enabled"], Bool(false))];
    SetPathEmpty(["cache", "enabled"], Bool(false));
    assert ["cache", "enabled"][1..] == ["enabled"];
  }

  /** `DATAPROWLER_CONFIG` itself is overlaid, at the top-level key `config`. */
  lemma LoadEnvVarsConfig()
    ensures LoadEnvVars([], [("DATAPROWLER_CONFIG", "/etc/dp.yaml")])
         == Ok([("config", Str("/etc/dp.yaml"))])
  {
    var t := "/etc/dp.yaml";
    var w := [(["config"], Str(t))];
    ConfigWrites();
    assert SetPath([], ["config"], Str(t)) == Ok([("config", Str(t))]);
    assert SetAll([], w) == SetAll([("config", Str(t))], w[1..]);
  }

  lemma ConfigWrites()
    ensures EnvWrites([("DATAPROWLER_CONFIG", "/etc/dp.yaml")]) == [(["config"], Str("/etc/dp.yaml"))]
  {
    var n, t := "DATAPROWLER_CONFIG", "/etc/dp.yaml";
    assert IsOverlayName(n) && KeyPath(n) == ["config"] by { KeyPathConfig(); }
    assert Coerce(t) == Str(t) by { CoerceStrWhen(t); }
    EnvWritesSingle(n, t);
  }

  lemma EnvWritesSingle(n: string, t: string)
    requires IsOverlayName(n)
    ensures EnvWrites([(n, t)]) == [(KeyPath(n), Coerce(t))]
  {
    assert [(n, t)][1..] == [];
  }
}
