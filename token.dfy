/** `fixJWTToken`: normalise the credential returned by the sign-in endpoint and
    check that it has the compact shape of a JSON Web Token, three segments
    separated by dots (section 3 of RFC 7519, section 7.1 of RFC 7515).
    The cleaning is a chain of four JavaScript string operations:
    `trim()`, `replace(/[\r\n]/g, '')`, `replace(/['"]/g, '')`, `replace(/\s/g, '')`. */
module Token {
  import opened Seqs

  datatype TokenError = InvalidStructure(parts: nat)

  datatype Result = Ok(value: string) | Err(error: TokenError)

  /** The ECMAScript WhiteSpace and LineTerminator code points: what `trim()`
      strips and what the regular expression class `\s` matches. */
  predicate IsWhitespace(c: char)
  {
    var n := c as int;
    n == 0x09 || n == 0x0A || n == 0x0B || n == 0x0C || n == 0x0D || n == 0x20
    || n == 0xA0 || n == 0x1680 || (0x2000 <= n <= 0x200A) || n == 0x2028 || n == 0x2029
    || n == 0x202F || n == 0x205F || n == 0x3000 || n == 0xFEFF
  }

  predicate IsQuote(c: char)
  {
    c == '\'' || c == '"'
  }

  predicate IsDot(c: char)
  {
    c == '.'
  }

  predicate NotLineBreak(c: char)
  {
    c != '\r' && c != '\n'
  }

  predicate NotQuote(c: char)
  {
    !IsQuote(c)
  }

  predicate NotWhitespace(c: char)
  {
    !IsWhitespace(c)
  }

  /** The characters a cleaned token keeps. */
  predicate IsKept(c: char)
  {
    !IsWhitespace(c) && !IsQuote(c)
  }

  function TrimStart(s: string): string
  {
    if s != [] && IsWhitespace(s[0]) then TrimStart(s[1..]) else s
  }

  function TrimEnd(s: string): string
  {
    if s != [] && IsWhitespace(s[|s| - 1]) then TrimEnd(s[..|s| - 1]) else s
  }

  /** `s.trim()` */
  function Trim(s: string): string
  {
    TrimEnd(TrimStart(s))
  }

  /** The replace chain, step by step as written. */
  function Clean(token: string): string
  {
    Filter(Filter(Filter(Trim(token), NotLineBreak), NotQuote), NotWhitespace)
  }

  /** `s.split('.')`: the maximal dot-free pieces, one more than there are dots. */
  function Split(s: string): (parts: seq<string>)
    ensures |parts| >= 1
  {
    if s == [] then [""]
    else
      var init := Split(s[..|s| - 1]);
      var c := s[|s| - 1];
      if c == '.' then init + [""]
      else init[..|init| - 1] + [init[|init| - 1] + [c]]
  }

  /** `parts.join('.')` */
  function Join(parts: seq<string>): string
    requires |parts| >= 1
  {
    if |parts| == 1 then parts[0] else Join(parts[..|parts| - 1]) + "." + parts[|parts| - 1]
  }

  /** `fixJWTToken(token)`; the thrown `Error` is `Err`. */
  function FixJWTToken(token: string): (r: Result)
    ensures r.Ok? <==> |Filter(token, IsDot)| == 2
    ensures r.Ok? ==> r.value == Filter(token, IsKept) && |Split(r.value)| == 3
    ensures r.Err? ==> r.error == InvalidStructure(|Filter(token, IsDot)| + 1)
  {
    var fixed := Clean(token);
    var parts := Split(fixed);
    CleanIsFilter(token);
    CleanKeepsDots(token);
    SplitCountsDots(fixed);
    if |parts| != 3 then Err(InvalidStructure(|parts|)) else Ok(fixed)
  }

  lemma {:induction false} TrimStartFilter(s: string, p: char -> bool)
    requires forall c :: IsWhitespace(c) ==> !p(c)
    ensures Filter(TrimStart(s), p) == Filter(s, p)
  {
    if s != [] && IsWhitespace(s[0]) {
      TrimStartFilter(s[1..], p);
      FilterAppend([s[0]], s[1..], p);
      assert s == [s[0]] + s[1..];
    }
  }

  lemma {:induction false} TrimEndFilter(s: string, p: char -> bool)
    requires forall c :: IsWhitespace(c) ==> !p(c)
    ensures Filter(TrimEnd(s), p) == Filter(s, p)
  {
    if s != [] && IsWhitespace(s[|s| - 1]) {
      TrimEndFilter(s[..|s| - 1], p);
    }
  }

  /** The four-step chain removes every whitespace character and every quote, wherever
      it stands, and changes nothing else: the result is the input filtered by `IsKept`,
      every other character kept, in its original order. */
  lemma CleanIsFilter(token: string)
    ensures Clean(token) == Filter(token, IsKept)
  {
    var t := Trim(token);
    FilterFilter(t, NotLineBreak, NotQuote, c => NotLineBreak(c) && NotQuote(c));
    FilterFilter(t, c => NotLineBreak(c) && NotQuote(c), NotWhitespace, IsKept);
    TrimStartFilter(token, IsKept);
    TrimEndFilter(TrimStart(token), IsKept);
  }

  /** What survives the cleaning, counted character by character. */
  lemma CleanCounts(token: string)
    ensures forall c :: multiset(Clean(token))[c] == if IsKept(c) then multiset(token)[c] else 0
  {
    CleanIsFilter(token);
    FilterMultiset(token, IsKept);
  }

  /** Cleaning never removes a dot, so the cleaned token has as many dots as the input. */
  lemma CleanKeepsDots(token: string)
    ensures Filter(Clean(token), IsDot) == Filter(token, IsDot)
  {
    CleanIsFilter(token);
    FilterFilter(token, IsKept, IsDot, IsDot);
  }

  /** Cleaning is idempotent. */
  lemma CleanIdempotent(token: string)
    ensures Clean(Clean(token)) == Clean(token)
  {
    var once := Clean(token);
    CleanIsFilter(token);
    CleanIsFilter(once);
    FilterFilter(token, IsKept, IsKept, IsKept);
  }

  lemma {:induction false} SplitCountsDots(s: string)
    ensures |Split(s)| == |Filter(s, IsDot)| + 1
    ensures forall i :: 0 <= i < |Split(s)| ==> Filter(Split(s)[i], IsDot) == []
  {
    if s != [] {
      var init := Split(s[..|s| - 1]);
      SplitCountsDots(s[..|s| - 1]);
      var c := s[|s| - 1];
      if c != '.' {
        var last := init[|init| - 1];
        FilterAppend(last, [c], IsDot);
      }
    }
  }

  /** Splitting at the dots and joining with dots gives the string back. */
  lemma {:induction false} JoinSplit(s: string)
    ensures Join(Split(s)) == s
  {
    if s != [] {
      var s' := s[..|s| - 1];
      var init := Split(s');
      JoinSplit(s');
      var c := s[|s| - 1];
      if c == '.' {
        assert (init + [""])[..|init|] == init;
      } else {
        var n := |init|;
        var parts := init[..n - 1] + [init[n - 1] + [c]];
        if n > 1 {
          assert parts[..n - 1] == init[..n - 1];
          assert Join(init) == Join(init[..n - 1]) + "." + init[n - 1];
        }
      }
      assert s == s' + [s[|s| - 1]];
    }
  }

  /** Applying `fixJWTToken` to a token it accepted returns that token again. */
  lemma FixIdempotent(token: string)
    ensures FixJWTToken(token).Ok? ==> FixJWTToken(FixJWTToken(token).value) == FixJWTToken(token)
  {
    if FixJWTToken(token).Ok? {
      CleanIsFilter(token);
      CleanIdempotent(token);
      CleanKeepsDots(token);
    }
  }

  /** A credential with surrounding blanks, a trailing newline and quotes is
      accepted as its three bare segments. */
  lemma FixAcceptsQuotedToken()
    ensures FixJWTToken("  \"ab.cd.ef\"\n") == Ok("ab.cd.ef")
  {
    var head, body, tail := "  \"", "ab.cd.ef", "\"\n";
    assert head + body + tail == "  \"ab.cd.ef\"\n";
    QuotedTokenKept(head, body, tail);
    QuotedTokenDots(head, tail);
  }

  lemma QuotedTokenKept(head: string, body: string, tail: string)
    requires head == "  \"" && body == "ab.cd.ef" && tail == "\"\n"
    ensures Filter(head + body + tail, IsKept) == body
  {
    FilterNone(head, IsKept);
    FilterNone(tail, IsKept);
    FilterAll(body, IsKept);
    FilterAppend(head, body, IsKept);
    FilterAppend(head + body, tail, IsKept);
  }

  lemma QuotedTokenDots(head: string, tail: string)
    requires head == "  \"" && tail == "\"\n"
    ensures |Filter(head + "ab.cd.ef" + tail, IsDot)| == 2
  {
    var a, b, c := head + "ab", ".cd", ".ef" + tail;
    FilterNone(a, IsDot);
    FilterNone("cd", IsDot);
    FilterAppend(".", "cd", IsDot);
    assert b == "." + "cd";
    FilterNone("ef" + tail, IsDot);
    FilterAppend(".", "ef" + tail, IsDot);
    assert c == "." + ("ef" + tail);
    assert head + "ab.cd.ef" + tail == a + b + c;
    DotsOfSegments(head + "ab.cd.ef" + tail, a, b, c);
  }

  /** A two-segment credential is refused, reporting two parts. */
  lemma FixRefusesTwoSegments()
    ensures FixJWTToken("ab.cd") == Err(InvalidStructure(2))
  {
    FilterNone("ab", IsDot);
    FilterAppend("ab", ".cd", IsDot);
    assert "ab.cd" == "ab" + ".cd";
    assert Filter(".cd", IsDot) == ".";
  }

  lemma DotsOfSegments(token: string, a: string, b: string, c: string)
    requires token == a + b + c
    requires Filter(a, IsDot) == [] && Filter(b, IsDot) == "." && Filter(c, IsDot) == "."
    ensures |Filter(token, IsDot)| == 2
  {
    FilterAppend(a + b, c, IsDot);
    FilterAppend(a, b, IsDot);
  }
}
