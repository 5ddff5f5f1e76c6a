/**
 * `JsonClient.parseResponse`: turns the raw text of a response into the value
 * handed on, stripping the callback wrapper `cb(...)` or `cb(...);` that the
 * server puts around a response when the request URL named a callback.
 */
module ResponseParser {
  import opened Wrappers
  import opened Text
  import opened JsonValues

  /** What `^cb\((.*)\)|\);$` finds in the trimmed text. */
  datatype WrapperMatch =
    | Group(payload: string)  // the first alternative matched; group 1 is `payload`
    | BareSuffix              // only the second alternative matched; group 1 is undefined
    | NoMatch

  /** The text after the opening `cb(`, when `t` starts with it. */
  function AfterOpen(cb: string, t: string): string
    requires |cb| + 1 <= |t|
  {
    t[|cb| + 1..]
  }

  predicate StartsWithOpen(cb: string, t: string) {
    |cb| + 1 <= |t| && t[..|cb| + 1] == cb + "("
  }

  predicate EndsWithCloseSemicolon(t: string) {
    |t| >= 2 && t[|t| - 2..] == ");"
  }

  /**
   * The regular expression applied to the trimmed text. The first alternative
   * is anchored at the start only; its greedy `.*` runs to the last `)` before
   * the first line terminator. The callback name is a decimal token or `null`,
   * so it holds no character the regular expression would treat specially.
   */
  function MatchWrapper(cb: string, t: string): (m: WrapperMatch)
    ensures m.Group? ==> StartsWithOpen(cb, t) && NoLineTerminator(m.payload)
    ensures m.Group? ==> |cb| + 1 + |m.payload| < |t| && t[..|cb| + 1 + |m.payload| + 1] == cb + "(" + m.payload + ")"
    ensures m.Group? <==> StartsWithOpen(cb, t) && ')' in TakeLine(AfterOpen(cb, t))
    ensures m.Group? ==> |m.payload| < |TakeLine(AfterOpen(cb, t))| &&
                         forall k :: |m.payload| < k < |TakeLine(AfterOpen(cb, t))| ==> AfterOpen(cb, t)[k] != ')'
    ensures m.BareSuffix? ==> EndsWithCloseSemicolon(t)
    ensures m.NoMatch? ==> !EndsWithCloseSemicolon(t)
  {
    var hasOpen := StartsWithOpen(cb, t);
    var last := if hasOpen then LastIndexOf(TakeLine(AfterOpen(cb, t)), ')') else None;
    if last.Some? then
      GreedyGroup(cb, t, last.value);
      Group(AfterOpen(cb, t)[..last.value])
    else
      assert hasOpen ==> ')' !in TakeLine(AfterOpen(cb, t));
      if EndsWithCloseSemicolon(t) then BareSuffix else NoMatch
  }

  /** The greedy group ends at the last `)` of the first line after `cb(`. */
  lemma GreedyGroup(cb: string, t: string, j: nat)
    requires StartsWithOpen(cb, t) && LastIndexOf(TakeLine(AfterOpen(cb, t)), ')') == Some(j)
    ensures var rest, line := AfterOpen(cb, t), TakeLine(AfterOpen(cb, t));
            && j < |line| && ')' in line && NoLineTerminator(rest[..j])
            && |cb| + 1 + j < |t| && t[..|cb| + 1 + j + 1] == cb + "(" + rest[..j] + ")"
            && forall k :: j < k < |line| ==> rest[k] != ')'
  {
    var rest, line := AfterOpen(cb, t), TakeLine(AfterOpen(cb, t));
    assert line[j] == ')' && line[..j] == rest[..j];
    assert t == cb + "(" + rest;
    assert rest[..j + 1] == rest[..j] + ")";
    forall k | j < k < |line| ensures rest[k] != ')' {
      assert rest[k] == line[k];
    }
  }

  /** How the text is handed on: as null, as text for the JSON parser, or not at all. */
  datatype Unwrapped =
    | NullResult
    | ToParse(text: string)
    | Unspecified  // group 1 undefined: the source dereferences a null string here

  /** With pending-checking off, no callback was requested and the name `null` is expected. */
  function EffectiveCallback(checkIfPending: bool, callbackName: string): string {
    if checkIfPending then callbackName else "null"
  }

  /** Everything `parseResponse` does before `JsonUtils.parseJson`. */
  function Unwrap(checkIfPending: bool, callbackName: string, resp: Option<string>): (u: Unwrapped)
    ensures resp == None || resp == Some("") ==> u == NullResult
    ensures resp.Some? && resp.value != [] &&
            EqualsIgnoreCase(EffectiveCallback(checkIfPending, callbackName) + "(null);", Trim(resp.value))
            ==> u == NullResult
    ensures u.ToParse? ==> !EqualsIgnoreCase(u.text, "null")
    ensures u.Unspecified? ==> resp.Some? && EndsWithCloseSemicolon(Trim(resp.value))
  {
    UnwrapNamed(EffectiveCallback(checkIfPending, callbackName), resp)
  }

  /** The steps of `Unwrap` once the callback name to look for is known. */
  function UnwrapNamed(name: string, resp: Option<string>): Unwrapped {
    if resp.None? || resp.value == [] then NullResult
    else
      var t := Trim(resp.value);
      if EqualsIgnoreCase(name + "(null);", t) then NullResult
      else
        match MatchWrapper(name, t)
        case BareSuffix => Unspecified
        case Group(p) => if EqualsIgnoreCase(p, "null") then NullResult else ToParse(p)
        case NoMatch => if EqualsIgnoreCase(t, "null") then NullResult else ToParse(t)
  }

  /** What `parseResponse` returns, or `GroupMissing` where the source fails. */
  datatype ParseOutcome = Parsed(jso: Json) | GroupMissing

  function ParseResponse(checkIfPending: bool, callbackName: string, resp: Option<string>,
                         parseJson: string -> Json): (r: ParseOutcome)
    ensures r.GroupMissing? <==> Unwrap(checkIfPending, callbackName, resp).Unspecified?
    ensures Unwrap(checkIfPending, callbackName, resp).NullResult? ==> r == Parsed(JNull)
    ensures Unwrap(checkIfPending, callbackName, resp).ToParse? ==>
              r == Parsed(parseJson(Unwrap(checkIfPending, callbackName, resp).text))
  {
    match Unwrap(checkIfPending, callbackName, resp)
    case NullResult => Parsed(JNull)
    case ToParse(text) => Parsed(parseJson(text))
    case Unspecified => GroupMissing
  }

  /** The framing a server puts around payload `p` for callback `cb`. */
  function Wrap(cb: string, p: string, semicolon: bool): string {
    cb + "(" + p + ")" + (if semicolon then ";" else "")
  }

  lemma EqualsIgnoreCaseReflexive(a: string)
    ensures EqualsIgnoreCase(a, a)
  {
  }

  /** After `cb(`, the greedy group of `p)` or `p);` is `p`. */
  lemma GroupOfRest(p: string, semicolon: bool)
    requires NoLineTerminator(p)
    ensures var rest := p + ")" + (if semicolon then ";" else "");
            TakeLine(rest) == rest && LastIndexOf(rest, ')') == Some(|p|) && rest[..|p|] == p
  {
    var rest := p + ")" + (if semicolon then ";" else "");
    assert NoLineTerminator(rest) by {
      forall i | 0 <= i < |rest| ensures !IsLineTerminator(rest[i]) {
        if i < |p| { assert rest[i] == p[i]; }
      }
    }
    assert rest[|p|] == ')';
    var j := LastIndexOf(rest, ')');
    assert j.Some?;
    assert rest[..|p|] == p;
  }

  /** Trimming leaves `cb(p)` and `cb(p);` alone. */
  lemma WrapTrims(name: string, p: string, semicolon: bool)
    requires name != [] && name[0] > ' '
    ensures Trim(Wrap(name, p, semicolon)) == Wrap(name, p, semicolon)
  {
    var t := Wrap(name, p, semicolon);
    assert t[0] == name[0] && t[|t| - 1] == (if semicolon then ';' else ')');
  }

  /** The regular expression finds `p` again in `cb(p)` and `cb(p);`. */
  lemma WrapMatches(name: string, p: string, semicolon: bool)
    requires NoLineTerminator(p)
    ensures MatchWrapper(name, Wrap(name, p, semicolon)) == Group(p)
  {
    var t := Wrap(name, p, semicolon);
    var rest := p + ")" + (if semicolon then ";" else "");
    assert t == name + "(" + rest;
    assert t[..|name| + 1] == name + "(";
    assert AfterOpen(name, t) == rest;
    GroupOfRest(p, semicolon);
  }

  /** `cb(p);` reads as `cb(null);` exactly when `p` reads as `null`; `cb(p)` never does. */
  lemma WrapIsNullText(name: string, p: string, semicolon: bool)
    requires EqualsIgnoreCase(name + "(null);", Wrap(name, p, semicolon))
    ensures semicolon && EqualsIgnoreCase(p, "null")
  {
    var t, nullText := Wrap(name, p, semicolon), name + "(null);";
    var n := |name| + 1;
    assert t[|t| - 1] == (if semicolon then ';' else ')') && nullText[|t| - 1] == ';';
    assert LowerAscii(t[|t| - 1]) == LowerAscii(nullText[|t| - 1]);
    assert semicolon;
    forall i | 0 <= i < 4 ensures LowerAscii(p[i]) == LowerAscii("null"[i]) {
      assert t[n + i] == p[i] && nullText[n + i] == "null"[i];
    }
  }

  /**
   * Unwrapping undoes the framing: for `cb(p)` and `cb(p);` the text handed to
   * the parser is `p` exactly (or null when `p` spells `null`), provided `p`
   * stays on one line and the name does not start with white space.
   */
  lemma UnwrapWrapped(checkIfPending: bool, callbackName: string, p: string, semicolon: bool)
    requires EffectiveCallback(checkIfPending, callbackName) != []
    requires EffectiveCallback(checkIfPending, callbackName)[0] > ' '
    requires NoLineTerminator(p)
    ensures Unwrap(checkIfPending, callbackName, Some(Wrap(EffectiveCallback(checkIfPending, callbackName), p, semicolon)))
            == if EqualsIgnoreCase(p, "null") then NullResult else ToParse(p)
  {
    var name := EffectiveCallback(checkIfPending, callbackName);
    WrapTrims(name, p, semicolon);
    WrapMatches(name, p, semicolon);
    if EqualsIgnoreCase(name + "(null);", Wrap(name, p, semicolon)) {
      WrapIsNullText(name, p, semicolon);
    }
  }

  /** A text that reads as one ending in `);` ends in `);` itself: those two characters have no case. */
  lemma EqualsIgnoreCaseKeepsCloseSemicolon(a: string, b: string)
    requires EqualsIgnoreCase(a, b) && EndsWithCloseSemicolon(a)
    ensures EndsWithCloseSemicolon(b)
  {
    var n := |a|;
    assert a[n - 2] == ')' && a[n - 1] == ';';
    assert LowerAscii(b[n - 2]) == ')' && LowerAscii(b[n - 1]) == ';';
    assert b[n - 2..] == [b[n - 2], b[n - 1]];
  }

  /** Text with neither the opening `cb(` nor a closing `);` reaches the parser trimmed and otherwise unchanged. */
  lemma UnwrapBare(checkIfPending: bool, callbackName: string, resp: string)
    requires resp != []
    requires !StartsWithOpen(EffectiveCallback(checkIfPending, callbackName), Trim(resp))
    requires !EndsWithCloseSemicolon(Trim(resp))
    ensures Unwrap(checkIfPending, callbackName, Some(resp))
            == if EqualsIgnoreCase(Trim(resp), "null") then NullResult else ToParse(Trim(resp))
  {
    var t := Trim(resp);
    var name := EffectiveCallback(checkIfPending, callbackName);
    var nullText := name + "(null);";
    assert EndsWithCloseSemicolon(nullText) by {
      assert nullText[|nullText| - 2..] == ");";
    }
    if EqualsIgnoreCase(nullText, t) {
      EqualsIgnoreCaseKeepsCloseSemicolon(nullText, t);
    }
    assert MatchWrapper(name, t) == NoMatch;
  }

  /** With pending-checking off, the callback name of the call plays no part. */
  lemma UnwrapIgnoresTokenWhenNotPending(callbackName: string, other: string, resp: Option<string>)
    ensures Unwrap(false, callbackName, resp) == Unwrap(false, other, resp)
    ensures Unwrap(false, callbackName, resp) == Unwrap(true, "null", resp)
  {
    assert EffectiveCallback(false, callbackName) == EffectiveCallback(false, other) == EffectiveCallback(true, "null") == "null";
  }

  /** White space alone is not empty text: it trims to "" and goes to the parser. */
  lemma UnwrapWhitespaceOnly(checkIfPending: bool, callbackName: string, s: string)
    requires s != [] && forall i :: 0 <= i < |s| ==> s[i] <= ' '
    ensures Unwrap(checkIfPending, callbackName, Some(s)) == ToParse("")
  {
    assert Trim(s) == [];
    assert !EndsWithCloseSemicolon([]);
  }

  /**
   * A wrapped payload that spans lines, `1(` newline `2);`: the first
   * alternative finds no `)` before the line break, only `);` matches, and
   * group 1 is undefined.
   */
  lemma UnwrapMultiLineExample()
    ensures Unwrap(true, "1", Some("1(\n2);")) == Unspecified
  {
    var t := "1(\n2);";
    assert t[0] == '1' && t[|t| - 1] == ';';
    assert Trim(t) == t;
    assert !EqualsIgnoreCase("1(null);", t) by {
      assert LowerAscii(t[2]) != LowerAscii("1(null);"[2]);
    }
    assert AfterOpen("1", t) == "\n2);";
    assert TakeLine("\n2);") == [];
    assert t[|t| - 2..] == ");";
  }

  /** The literal wire form `tok123(null);` is null. */
  lemma UnwrapNullExample()
    ensures Unwrap(true, "tok123", Some("tok123(null);")) == NullResult
  {
    var t := "tok123(null);";
    assert EffectiveCallback(true, "tok123") + "(null);" == t;
    assert t[0] == 't' && t[|t| - 1] == ';';
    assert Trim(t) == t;
    EqualsIgnoreCaseReflexive(t);
    assert EqualsIgnoreCase(EffectiveCallback(true, "tok123") + "(null);", Trim(t));
  }

  /** The literal wire form `tok123({"a":1})` hands `{"a":1}` to the parser. */
  lemma UnwrapObjectExample()
    ensures Unwrap(true, "tok123", Some("tok123({\"a\":1})")) == ToParse("{\"a\":1}")
  {
    var p := "{\"a\":1}";
    assert NoLineTerminator(p) by {
      forall i | 0 <= i < |p| ensures !IsLineTerminator(p[i]) {
        assert p[i] in {'{', '"', 'a', ':', '1', '}'};
      }
    }
    assert Wrap("tok123", p, false) == "tok123({\"a\":1})";
    assert !EqualsIgnoreCase(p, "null");
    UnwrapWrapped(true, "tok123", p, false);
  }
}
