/**
 * The configuration read from the process environment at start-up
 * (`src/config/env.js`): the list of missing Twitter credentials, the Gemini
 * key list parsed from one comma-separated variable, and the defaults for
 * `PORT` and `NODE_ENV`. Everything here is a pure function of the environment.
 */
module Env {
  import opened Wrappers
  import opened Strings

  /** `process.env`: a variable that is not set is absent from the map. */
  type Environment = map<string, string>

  /** The Twitter credentials the bot warns about when they are missing, in their listed order. */
  const REQUIRED_VARS: seq<string> :=
    ["TWITTER_APP_KEY", "TWITTER_APP_SECRET", "TWITTER_ACCESS_TOKEN", "TWITTER_ACCESS_SECRET"]

  const DEFAULT_PORT: nat := 3000
  const DEFAULT_NODE_ENV: string := "development"

  /** JavaScript truthiness of `process.env[name]`: set and not the empty string. */
  predicate IsSet(env: Environment, name: string)
  {
    name in env && env[name] != ""
  }

  /** `process.env[name] || fallback`. */
  function OrDefault(env: Environment, name: string, fallback: string): string
  {
    if IsSet(env, name) then env[name] else fallback
  }

  /** `process.env[name]`, `undefined` being `None`. */
  function Lookup(env: Environment, name: string): Option<string>
  {
    if name in env then Some(env[name]) else None
  }

  /** `a` is `b` with some elements left out, the rest kept in order. */
  ghost predicate IsSubsequence(a: seq<string>, b: seq<string>)
    decreases |b|
  {
    if a == [] then true
    else if b == [] then false
    else if a[0] == b[0] then IsSubsequence(a[1..], b[1..])
    else IsSubsequence(a, b[1..])
  }

  /** `names.filter(key => !process.env[key])`: the names that are unset or empty, in their order. */
  function Unset(env: Environment, names: seq<string>): (missing: seq<string>)
    ensures forall v :: v in missing <==> v in names && !IsSet(env, v)
    ensures IsSubsequence(missing, names)
    decreases |names|
  {
    if names == [] then []
    else if IsSet(env, names[0]) then Unset(env, names[1..])
    else [names[0]] + Unset(env, names[1..])
  }

  /** `missingKeys`: the required Twitter variables that are unset or empty. */
  function MissingKeys(env: Environment): seq<string>
  {
    Unset(env, REQUIRED_VARS)
  }

  /** `GEMINI_API_KEYS || GEMINI_API_KEY || ""`: the raw comma-separated key list. */
  function KeysSource(env: Environment): (s: string)
    ensures IsSet(env, "GEMINI_API_KEYS") ==> s == env["GEMINI_API_KEYS"]
    ensures !IsSet(env, "GEMINI_API_KEYS") && IsSet(env, "GEMINI_API_KEY") ==> s == env["GEMINI_API_KEY"]
    ensures s == "" <==> !IsSet(env, "GEMINI_API_KEYS") && !IsSet(env, "GEMINI_API_KEY")
  {
    OrDefault(env, "GEMINI_API_KEYS", OrDefault(env, "GEMINI_API_KEY", ""))
  }

  /** `.map(k => k.trim()).filter(k => k.length > 0)` over the pieces, in order. */
  function TrimmedNonEmpty(pieces: seq<string>): (keys: seq<string>)
    ensures |keys| <= |pieces|
    decreases |pieces|
  {
    if pieces == [] then []
    else
      var t := Trim(pieces[0]);
      (if t == "" then [] else [t]) + TrimmedNonEmpty(pieces[1..])
  }

  /** Every key that survives is non-empty and has no white space at either end. */
  lemma {:induction false} TrimmedNonEmptyWellFormed(pieces: seq<string>)
    ensures forall k :: k in TrimmedNonEmpty(pieces) ==> k != "" && IsTrimmed(k)
    decreases |pieces|
  {
    if pieces != [] {
      TrimmedNonEmptyWellFormed(pieces[1..]);
    }
  }

  /** No key survives exactly when every piece trims to the empty string. */
  lemma {:induction false} TrimmedNonEmptyIsEmpty(pieces: seq<string>)
    ensures TrimmedNonEmpty(pieces) == [] <==> forall p :: p in pieces ==> Trim(p) == ""
    decreases |pieces|
  {
    if pieces != [] {
      TrimmedNonEmptyIsEmpty(pieces[1..]);
      assert forall p :: p in pieces <==> p == pieces[0] || p in pieces[1..];
    }
  }

  /** A character absent from every piece is absent from every key. */
  lemma {:induction false} TrimmedNonEmptyOmits(pieces: seq<string>, c: char)
    requires forall p :: p in pieces ==> c !in p
    ensures forall k :: k in TrimmedNonEmpty(pieces) ==> c !in k
    decreases |pieces|
  {
    if pieces != [] {
      var p := pieces[0];
      assert p in pieces;
      TrimInfix(p);
      var i := |p| - |TrimStart(p)|;
      var t := Trim(p);
      forall j | 0 <= j < |t|
        ensures t[j] != c
      {
        assert t[j] == p[i + j];
      }
      assert forall q :: q in pieces[1..] ==> q in pieces;
      TrimmedNonEmptyOmits(pieces[1..], c);
    }
  }

  /** The Gemini key list: the trimmed comma-separated pieces of `s`, empties dropped. */
  function ParseKeys(s: string): (keys: seq<string>)
    ensures forall k :: k in keys ==> k != "" && IsTrimmed(k) && ',' !in k
  {
    var pieces := Split(s, ',');
    TrimmedNonEmptyWellFormed(pieces);
    TrimmedNonEmptyOmits(pieces, ',');
    TrimmedNonEmpty(pieces)
  }

  /** The values `env.js` exports. */
  datatype Port = PortFromEnv(text: string) | DefaultPort(number: nat)
  datatype TwitterCredentials = TwitterCredentials(
    appKey: Option<string>, appSecret: Option<string>,
    accessToken: Option<string>, accessSecret: Option<string>)
  datatype Config = Config(port: Port, twitter: TwitterCredentials, geminiKeys: seq<string>, nodeEnv: string)

  /** The module's exports for a given environment. */
  function Load(env: Environment): (c: Config)
    ensures c.port == (if IsSet(env, "PORT") then PortFromEnv(env["PORT"]) else DefaultPort(DEFAULT_PORT))
    ensures c.nodeEnv == (if IsSet(env, "NODE_ENV") then env["NODE_ENV"] else DEFAULT_NODE_ENV)
    ensures c.geminiKeys == ParseKeys(KeysSource(env))
  {
    Config(
      if IsSet(env, "PORT") then PortFromEnv(env["PORT"]) else DefaultPort(DEFAULT_PORT),
      TwitterCredentials(
        Lookup(env, "TWITTER_APP_KEY"), Lookup(env, "TWITTER_APP_SECRET"),
        Lookup(env, "TWITTER_ACCESS_TOKEN"), Lookup(env, "TWITTER_ACCESS_SECRET")),
      ParseKeys(KeysSource(env)),
      OrDefault(env, "NODE_ENV", DEFAULT_NODE_ENV))
  }

  /** Keeping the non-empty trims distributes over concatenation of the pieces. */
  lemma {:induction false} TrimmedNonEmptyAppend(a: seq<string>, b: seq<string>)
    ensures TrimmedNonEmpty(a + b) == TrimmedNonEmpty(a) + TrimmedNonEmpty(b)
    decreases |a|
  {
    if a != [] {
      var t := Trim(a[0]);
      var head: seq<string> := if t == "" then [] else [t];
      assert (a + b)[0] == a[0];
      assert (a + b)[1..] == a[1..] + b;
      TrimmedNonEmptyAppend(a[1..], b);
      calc {
        TrimmedNonEmpty(a + b);
        head + TrimmedNonEmpty((a + b)[1..]);
        head + TrimmedNonEmpty(a[1..] + b);
        head + (TrimmedNonEmpty(a[1..]) + TrimmedNonEmpty(b));
        (head + TrimmedNonEmpty(a[1..])) + TrimmedNonEmpty(b);
      }
    } else {
      assert a + b == b;
    }
  }

  /** Pieces that are already keys pass through unchanged. */
  lemma {:induction false} TrimmedNonEmptyOfKeys(keys: seq<string>)
    requires forall k :: k in keys ==> k != "" && IsTrimmed(k)
    ensures TrimmedNonEmpty(keys) == keys
    decreases |keys|
  {
    if keys != [] {
      assert keys[0] in keys;
      TrimOfTrimmed(keys[0]);
      assert forall k :: k in keys[1..] ==> k in keys;
      TrimmedNonEmptyOfKeys(keys[1..]);
      assert TrimmedNonEmpty(keys) == [keys[0]] + TrimmedNonEmpty(keys[1..]);
      assert [keys[0]] + keys[1..] == keys;
    }
  }

  /** Round trip: a well-formed key list joined with commas parses back to itself. */
  lemma ParseKeysOfJoin(keys: seq<string>)
    requires forall k :: k in keys ==> k != "" && IsTrimmed(k) && ',' !in k
    ensures ParseKeys(Join(keys, ',')) == keys
  {
    if keys != [] {
      SplitOfJoin(keys, ',');
      TrimmedNonEmptyOfKeys(keys);
    }
  }

  /** A comma separates the keys on its left from the keys on its right. */
  lemma ParseKeysAroundComma(a: string, b: string)
    ensures ParseKeys(a + [','] + b) == ParseKeys(a) + ParseKeys(b)
  {
    SplitAroundSeparator(a, b, ',');
    TrimmedNonEmptyAppend(Split(a, ','), Split(b, ','));
  }

  /** The key list is empty exactly when the source holds nothing but white space and commas. */
  lemma ParseKeysEmptyIffBlank(s: string)
    ensures ParseKeys(s) == [] <==> forall i :: 0 <= i < |s| ==> IsWhitespace(s[i]) || s[i] == ','
  {
    var pieces := Split(s, ',');
    SplitPiecesCoverInput(s, ',');
    TrimmedNonEmptyIsEmpty(pieces);
    if forall i :: 0 <= i < |s| ==> IsWhitespace(s[i]) || s[i] == ',' {
      forall p | p in pieces
        ensures Trim(p) == ""
      {
        TrimEmptyIffBlank(p);
        assert ',' !in p;
        forall j | 0 <= j < |p|
          ensures IsWhitespace(p[j])
        {
          assert p[j] in p;
        }
      }
    }
    if ParseKeys(s) == [] {
      forall i | 0 <= i < |s|
        ensures IsWhitespace(s[i]) || s[i] == ','
      {
        if s[i] != ',' {
          assert s[i] in s;
          var p :| p in pieces && s[i] in p;
          TrimEmptyIffBlank(p);
          var j :| 0 <= j < |p| && p[j] == s[i];
        }
      }
    }
  }

  /** Every key `Load` yields is usable as a credential: non-empty, trimmed, comma-free. */
  lemma LoadedKeysWellFormed(env: Environment)
    ensures forall k :: k in Load(env).geminiKeys ==> k != "" && IsTrimmed(k) && ',' !in k
  {
  }

  /** `missingKeys` lists exactly the unset or empty required variables, in their listed order. */
  lemma MissingKeysExact(env: Environment)
    ensures forall v :: v in MissingKeys(env) <==> v in REQUIRED_VARS && !IsSet(env, v)
    ensures IsSubsequence(MissingKeys(env), REQUIRED_VARS)
    ensures MissingKeys(env) == [] <==> forall v :: v in REQUIRED_VARS ==> IsSet(env, v)
  {
  }
}
