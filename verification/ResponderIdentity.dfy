/** Signing keys in the env file: the escaping that makes a PEM one line, and which PEMs are read back exactly. */
module ResponderIdentity {
  import opened Collections
  import opened EnvFile

  // ---------------------------------------------------------------------- the escaping

  /** Every newline becomes a backslash and an n. */
  function EncodePem(pem: string): string {
    if pem == "" then "" else (if pem[0] == '\n' then ['\\', 'n'] else [pem[0]]) + EncodePem(pem[1..])
  }

  /** Every backslash followed by an n becomes a newline, left to right. */
  function Unescape(s: string): string {
    if |s| < 2 then s
    else if s[0] == '\\' && s[1] == 'n' then "\n" + Unescape(s[2..])
    else [s[0]] + Unescape(s[1..])
  }

  /** An empty value reads as absent. */
  function DecodePem(s: string): Option<string> {
    if s == "" then None else Some(Unescape(s))
  }

  predicate HasEscape(s: string) {
    |s| >= 2 && ((s[0] == '\\' && s[1] == 'n') || HasEscape(s[1..]))
  }

  lemma {:induction false} EncodeShape(pem: string)
    requires pem != ""
    ensures var enc := EncodePem(pem);
            && enc != "" && enc[0] == (if pem[0] == '\n' then '\\' else pem[0])
            && enc[|enc| - 1] == (if pem[|pem| - 1] == '\n' then 'n' else pem[|pem| - 1])
    decreases |pem|
  {
    if |pem| > 1 {
      EncodeShape(pem[1..]);
    } else {
      assert EncodePem(pem[1..]) == "";
    }
  }

  lemma {:induction false} EncodedIsSingleLine(pem: string)
    ensures SingleLine(EncodePem(pem))
    decreases |pem|
  {
    if pem != "" {
      EncodedIsSingleLine(pem[1..]);
    }
  }

  /** Escaping is undone exactly when the text holds no backslash followed by an n to begin with. */
  lemma {:induction false} UnescapeEncode(pem: string)
    ensures Unescape(EncodePem(pem)) == pem <==> !HasEscape(pem)
    decreases |pem|
  {
    if pem != "" {
      var rest := EncodePem(pem[1..]);
      UnescapeEncode(pem[1..]);
      if pem[0] == '\n' {
        assert EncodePem(pem)[2..] == rest;
        assert Unescape(EncodePem(pem)) == "\n" + Unescape(rest);
        assert pem == "\n" + pem[1..];
      } else if |pem| > 1 {
        EncodeShape(pem[1..]);
        assert EncodePem(pem)[1..] == rest && pem == [pem[0]] + pem[1..];
      } else {
        assert EncodePem(pem) == pem;
      }
    }
  }

  // -------------------------------------------------------------- nothing hides a lost edge

  function Escapes(s: string): nat {
    if |s| < 2 then 0 else (if s[0] == '\\' && s[1] == 'n' then 1 else 0) + Escapes(s[1..])
  }

  function Newlines(s: string): nat {
    if s == "" then 0 else (if s[0] == '\n' then 1 else 0) + Newlines(s[1..])
  }

  lemma {:induction false} UnescapeLength(s: string)
    ensures |Unescape(s)| + Escapes(s) == |s|
    decreases |s|
  {
    if |s| >= 2 {
      if s[0] == '\\' && s[1] == 'n' {
        UnescapeLength(s[2..]);
        assert s[1..][1..] == s[2..];
      } else {
        UnescapeLength(s[1..]);
      }
    }
  }

  lemma {:induction false} EncodeCounts(pem: string)
    ensures |EncodePem(pem)| == |pem| + Newlines(pem) && Escapes(EncodePem(pem)) >= Newlines(pem)
    decreases |pem|
  {
    if pem != "" {
      var enc, rest := EncodePem(pem), EncodePem(pem[1..]);
      EncodeCounts(pem[1..]);
      if pem[0] == '\n' {
        assert enc[1..] == ['n'] + rest && enc[1..][1..] == rest;
      } else {
        assert enc[1..] == rest;
      }
    }
  }

  lemma {:induction false} TrimStartKeepsEscapes(s: string)
    ensures Escapes(TrimStart(s)) == Escapes(s)
    decreases |s|
  {
    if s != "" && White(s[0]) {
      TrimStartKeepsEscapes(s[1..]);
    }
  }

  lemma {:induction false} DropLastKeepsEscapes(s: string)
    requires s != "" && s[|s| - 1] != 'n'
    ensures Escapes(s[..|s| - 1]) == Escapes(s)
    decreases |s|
  {
    if |s| >= 2 {
      DropLastKeepsEscapes(s[1..]);
      assert s[..|s| - 1][1..] == s[1..][..|s| - 2];
    }
  }

  lemma {:induction false} TrimEndKeepsEscapes(s: string)
    ensures Escapes(TrimEnd(s)) == Escapes(s)
    decreases |s|
  {
    if s != "" && White(s[|s| - 1]) {
      DropLastKeepsEscapes(s);
      TrimEndKeepsEscapes(s[..|s| - 1]);
    }
  }

  lemma CleaningKeepsEscapes(s: string)
    ensures Escapes(Cleaned(s)) == Escapes(s)
  {
    TrimEndKeepsEscapes(s);
    TrimStartKeepsEscapes(TrimEnd(s));
    var t := Trim(s);
    if Quoted(t) && |t| >= 2 {
      DropLastKeepsEscapes(t);
      assert t[..|t| - 1][1..] == t[1..|t| - 1];
    }
  }

  /** Edges that are newlines, which the escaping protects, or neither white nor a pair of quotes. */
  predicate PemEdges(pem: string)
    requires pem != ""
  {
    && (pem[0] == '\n' || !White(pem[0]))
    && (pem[|pem| - 1] == '\n' || !White(pem[|pem| - 1]))
    && !(pem[0] == pem[|pem| - 1] && (pem[0] == '"' || pem[0] == '\''))
  }

  predicate Survives(pem: string) {
    pem != "" && !HasEscape(pem) && PemEdges(pem)
  }

  lemma CleanedIsShorter(s: string)
    requires Cleaned(s) != s
    ensures |Cleaned(s)| < |s|
  {
    TrimShape(s);
    TrimEndShape(s);
    TrimStartShape(TrimEnd(s));
  }

  /** What cleaning cuts off the escaped text is missing after unescaping. */
  lemma ShortenedIsOther(pem: string)
    requires pem != "" && Cleaned(EncodePem(pem)) != EncodePem(pem)
    ensures DecodePem(Cleaned(EncodePem(pem))) != Some(pem)
  {
    var enc := EncodePem(pem);
    CleaningKeepsEscapes(enc);
    EncodeCounts(pem);
    UnescapeLength(Cleaned(enc));
    CleanedIsShorter(enc);
  }

  /** A PEM goes through the env file unchanged exactly when it is not empty, holds no literal escape, and has safe edges. */
  lemma ReadsBackExactlyWhen(pem: string)
    ensures DecodePem(Cleaned(EncodePem(pem))) == Some(pem) <==> Survives(pem)
  {
    var enc := EncodePem(pem);
    if pem == "" {
      assert Cleaned("") == "";
    } else {
      EncodeShape(pem);
      UnescapeEncode(pem);
      CleanedExactlyWhen(enc);
      if Cleaned(enc) != enc {
        ShortenedIsOther(pem);
      }
    }
  }

  // ----------------------------------------------------------------- the identity operation

  const PUBLIC_KEY := "RESPONDER_SIGNING_PUBLIC_KEY_PEM"
  const PRIVATE_KEY := "RESPONDER_SIGNING_PRIVATE_KEY_PEM"
  const RESPONDER_ID := "RESPONDER_ID"

  datatype SigningPair = SigningPair(publicKeyPem: string, privateKeyPem: string)

  datatype Identity = Identity(responderId: string, publicKeyPem: Option<string>, privateKeyPem: Option<string>)

  function KeyUpdates(pair: SigningPair, responderId: string): seq<Update> {
    [Set(PUBLIC_KEY, EncodePem(pair.publicKeyPem)), Set(PRIVATE_KEY, EncodePem(pair.privateKeyPem)), Set(RESPONDER_ID, responderId)]
  }

  function Lookup(env: Env, key: string): Option<string> {
    if key in env && env[key] != "" then Some(env[key]) else None
  }

  function FirstGiven(candidates: seq<Option<string>>, fallback: string): string {
    if candidates == [] then fallback
    else if candidates[0].Some? && candidates[0].value != "" then candidates[0].value
    else FirstGiven(candidates[1..], fallback)
  }

  function KeyIn(env: Env, key: string): Option<string> {
    if key in env then DecodePem(env[key]) else None
  }

  lemma KeysUpdated(env: Env, pair: SigningPair, responderId: string)
    ensures Updated(env, KeyUpdates(pair, responderId), false)
         == env[PUBLIC_KEY := EncodePem(pair.publicKeyPem)][PRIVATE_KEY := EncodePem(pair.privateKeyPem)][RESPONDER_ID := responderId]
  {
    var u := KeyUpdates(pair, responderId);
    assert u[..2] == [u[0], u[1]] && u[..2][..1] == [u[0]] && u[..1][..0] == [];
    assert Updated(env, [u[0]], false) == env[PUBLIC_KEY := EncodePem(pair.publicKeyPem)];
    assert Updated(env, u[..2], false) == env[PUBLIC_KEY := EncodePem(pair.publicKeyPem)][PRIVATE_KEY := EncodePem(pair.privateKeyPem)];
  }

  lemma KeyNamesAreGood()
    ensures GoodKey(PUBLIC_KEY) && GoodKey(PRIVATE_KEY) && GoodKey(RESPONDER_ID)
  {
    assert |PUBLIC_KEY| == 32 && |PRIVATE_KEY| == 33;
  }

  /** Whatever the file held before, the keys written into it are read back exactly when each survives the trip. */
  lemma WrittenKeysReadBack(text: string, pair: SigningPair, responderId: string, order: seq<string>)
    requires SingleLine(responderId)
    requires Lists(order, Updated(ParseLines(SplitLines(text)), KeyUpdates(pair, responderId), false))
    ensures var next := Updated(ParseLines(SplitLines(text)), KeyUpdates(pair, responderId), false);
            var env := ParseLines(SplitLines(FormatEnvFile(next, order)));
            && (KeyIn(env, PUBLIC_KEY) == Some(pair.publicKeyPem) <==> Survives(pair.publicKeyPem))
            && (KeyIn(env, PRIVATE_KEY) == Some(pair.privateKeyPem) <==> Survives(pair.privateKeyPem))
            && (GoodValue(responderId) ==> RESPONDER_ID in env && env[RESPONDER_ID] == responderId)
  {
    var updates := KeyUpdates(pair, responderId);
    KeyNamesAreGood();
    EncodedIsSingleLine(pair.publicKeyPem);
    EncodedIsSingleLine(pair.privateKeyPem);
    UpdateReadsBack(text, updates, false, order);
    KeysUpdated(ParseLines(SplitLines(text)), pair, responderId);
    assert PUBLIC_KEY != PRIVATE_KEY by { assert |PUBLIC_KEY| == 32 && |PRIVATE_KEY| == 33; }
    assert RESPONDER_ID != PUBLIC_KEY && RESPONDER_ID != PRIVATE_KEY by { assert |RESPONDER_ID| == 12; }
    ReadsBackExactlyWhen(pair.publicKeyPem);
    ReadsBackExactlyWhen(pair.privateKeyPem);
    CleanedExactlyWhen(responderId);
  }

  predicate Blank(candidate: Option<string>) {
    candidate.None? || candidate.value == ""
  }

  /** The first candidate that is there and not empty, else the fallback. */
  lemma {:induction false} FirstGivenIsFirst(candidates: seq<Option<string>>, fallback: string, i: nat)
    requires i <= |candidates| && forall j :: 0 <= j < i ==> Blank(candidates[j])
    requires i < |candidates| ==> !Blank(candidates[i])
    ensures FirstGiven(candidates, fallback) == if i < |candidates| then candidates[i].value else fallback
    decreases i
  {
    if i > 0 {
      FirstGivenIsFirst(candidates[1..], fallback, i - 1);
    }
  }

  class OpsState {
    var file: string
    var env: Env
    var configuredId: Option<string>

    constructor (file: string, configuredId: Option<string>)
      ensures this.file == file && env == ParseLines(SplitLines(file)) && this.configuredId == configuredId
    {
      this.file, this.configuredId := file, configuredId;
      env := ParseLines(SplitLines(file));
    }

    /** Keys already in the environment are used as they are; otherwise a new pair is written to the file and read back from it. */
    method EnsureResponderIdentity(responderId: Option<string>, randomId: string, pair: SigningPair) returns (identity: Identity)
      modifies this
      ensures identity.responderId == FirstGiven([responderId, old(configuredId), Lookup(old(env), RESPONDER_ID)], randomId)
      ensures configuredId == Some(identity.responderId)
      ensures identity.publicKeyPem == KeyIn(env, PUBLIC_KEY) && identity.privateKeyPem == KeyIn(env, PRIVATE_KEY)
      ensures Lookup(old(env), PUBLIC_KEY).Some? && Lookup(old(env), PRIVATE_KEY).Some? ==> env == old(env) && file == old(file)
      ensures Lookup(old(env), PUBLIC_KEY).None? || Lookup(old(env), PRIVATE_KEY).None? ==>
                && env == ParseLines(SplitLines(file))
                && (SingleLine(identity.responderId) ==>
                      && (identity.publicKeyPem == Some(pair.publicKeyPem) <==> Survives(pair.publicKeyPem))
                      && (identity.privateKeyPem == Some(pair.privateKeyPem) <==> Survives(pair.privateKeyPem))
                      && (GoodValue(identity.responderId) ==> RESPONDER_ID in env && env[RESPONDER_ID] == identity.responderId))
    {
      var currentId := FirstGiven([responderId, configuredId, Lookup(env, RESPONDER_ID)], randomId);
      configuredId := Some(currentId);
      if Lookup(env, PUBLIC_KEY).None? || Lookup(env, PRIVATE_KEY).None? {
        var next, order, written := UpdateEnvFile(file, KeyUpdates(pair, currentId), false);
        if SingleLine(currentId) {
          WrittenKeysReadBack(file, pair, currentId, order);
        }
        file := written;
        env := ParseEnvText(file);
      }
      identity := Identity(currentId, KeyIn(env, PUBLIC_KEY), KeyIn(env, PRIVATE_KEY));
    }
  }
}
