/**
 * The query page's guard on administrator-typed SQL.  The text is trimmed;
 * empty text is ignored; otherwise its upper-cased, trimmed form must start
 * with `SELECT` or `WITH` and must not contain any prohibited keyword as a
 * substring anywhere, so an identifier such as `CREATED_AT` or
 * `LAST_UPDATE` is refused as well.  Upper-casing and trimming are modelled
 * on ASCII text.
 */
module SqlGuard {

  /** Python's `str.isspace` on ASCII: tab, line feed, vertical tab, form feed, carriage return, the four separators and space. */
  predicate IsSpace(c: char) {
    c == ' ' || c == '\t' || c == '\n' || c == '\U{0B}' || c == '\U{0C}' || c == '\r' ||
    ('\U{1C}' <= c <= '\U{1F}')
  }

  /** Leading whitespace removed. */
  function StripStart(s: string): (r: string)
    ensures |r| <= |s| && r == s[|s| - |r|..]
    ensures r == [] || !IsSpace(r[0])
    ensures forall i :: 0 <= i < |s| - |r| ==> IsSpace(s[i])
  {
    if s != [] && IsSpace(s[0]) then StripStart(s[1..]) else s
  }

  /** Trailing whitespace removed. */
  function StripEnd(s: string): (r: string)
    ensures |r| <= |s| && r == s[..|r|]
    ensures r == [] || !IsSpace(r[|r| - 1])
    ensures forall i :: |r| <= i < |s| ==> IsSpace(s[i])
  {
    if s != [] && IsSpace(s[|s| - 1]) then StripEnd(s[..|s| - 1]) else s
  }

  /** `str.strip()` */
  function Strip(s: string): string {
    StripEnd(StripStart(s))
  }

  /** `str.upper()` on one ASCII character. */
  function UpperChar(c: char): (u: char)
    ensures 'a' <= c <= 'z' ==> 'A' <= u <= 'Z' && u as int == c as int - 32
    ensures !('a' <= c <= 'z') ==> u == c
  {
    if 'a' <= c <= 'z' then (c as int - 32) as char else c
  }

  function Upper(s: string): (r: string)
    ensures |r| == |s| && forall i :: 0 <= i < |s| ==> r[i] == UpperChar(s[i])
  {
    seq(|s|, i requires 0 <= i < |s| => UpperChar(s[i]))
  }

  predicate StartsWith(s: string, prefix: string) {
    |prefix| <= |s| && s[..|prefix|] == prefix
  }

  /** `sub` occurs in `s` starting at index `i`. */
  predicate OccursAt(s: string, sub: string, i: int) {
    0 <= i && i + |sub| <= |s| && s[i..i + |sub|] == sub
  }

  /** `sub in s` */
  predicate Contains(s: string, sub: string) {
    exists i :: 0 <= i <= |s| - |sub| && OccursAt(s, sub, i)
  }

  const Prohibited: seq<string> :=
    ["DROP", "DELETE", "INSERT", "UPDATE", "ALTER", "CREATE", "TRUNCATE", "EXEC", "EXECUTE"]

  /** `any(keyword in query_upper for keyword in [...])` */
  predicate HasProhibited(s: string) {
    exists k :: 0 <= k < |Prohibited| && Contains(s, Prohibited[k])
  }

  /** What the page does with a submitted query. */
  datatype Verdict =
    | Ignored       // nothing but whitespace: no message, nothing run
    | NotSelect     // "Only SELECT queries (including CTEs with WITH) are allowed ..."
    | Forbidden     // "Detected prohibited SQL keywords ..."
    | Run           // handed to the database cursor

  /** The guard, in the page's order: empty text, then the prefix, then the keywords. */
  function Check(query: string): (v: Verdict)
    ensures v == Ignored <==> Strip(query) == []
    ensures v == NotSelect <==>
      Strip(query) != [] &&
      !(StartsWith(Strip(Upper(Strip(query))), "SELECT") || StartsWith(Strip(Upper(Strip(query))), "WITH"))
    ensures v == Run <==>
      Strip(query) != [] &&
      (StartsWith(Strip(Upper(Strip(query))), "SELECT") || StartsWith(Strip(Upper(Strip(query))), "WITH")) &&
      !HasProhibited(Strip(Upper(Strip(query))))
  {
    var text := Strip(query);
    if text == [] then Ignored
    else
      var upper := Strip(Upper(text));
      if !(StartsWith(upper, "SELECT") || StartsWith(upper, "WITH")) then NotSelect
      else if HasProhibited(upper) then Forbidden
      else Run
  }

  // ------------------------------------------------------------ properties

  lemma UpperKeepsSpace(c: char)
    ensures IsSpace(UpperChar(c)) <==> IsSpace(c)
  {
  }

  /** Upper-casing and trimming commute on ASCII text. */
  lemma {:induction false} StripStartUpper(s: string)
    ensures StripStart(Upper(s)) == Upper(StripStart(s))
  {
    if s != [] {
      UpperKeepsSpace(s[0]);
      assert Upper(s)[1..] == Upper(s[1..]);
      if IsSpace(s[0]) {
        StripStartUpper(s[1..]);
      }
    }
  }

  lemma {:induction false} StripEndUpper(s: string)
    ensures StripEnd(Upper(s)) == Upper(StripEnd(s))
  {
    if s != [] {
      UpperKeepsSpace(s[|s| - 1]);
      assert Upper(s)[..|s| - 1] == Upper(s[..|s| - 1]);
      if IsSpace(s[|s| - 1]) {
        StripEndUpper(s[..|s| - 1]);
      }
    }
  }

  lemma StripUpper(s: string)
    ensures Strip(Upper(s)) == Upper(Strip(s))
  {
    StripStartUpper(s);
    StripEndUpper(StripStart(s));
  }

  lemma UpperTwice(s: string)
    ensures Upper(Upper(s)) == Upper(s)
  {
  }

  /**
   * The guard ignores letter case: a query and its upper-cased form get the
   * same verdict, so `select`, `Select` and `SELECT` are treated alike, and so
   * are `drop` and `DROP`.
   */
  lemma CaseInsensitive(query: string)
    ensures Check(Upper(query)) == Check(query)
  {
    StripUpper(query);
    UpperTwice(Strip(query));
    assert Strip(Upper(query)) == [] <==> Strip(query) == [];
  }

  /** Every prohibited keyword, found anywhere in the upper-cased text, refuses a SELECT. */
  lemma KeywordAnywhereRefuses(query: string, k: nat, at: nat)
    requires k < |Prohibited|
    requires StartsWith(Strip(Upper(Strip(query))), "SELECT")
    requires OccursAt(Strip(Upper(Strip(query))), Prohibited[k], at)
    ensures Check(query) == Forbidden
  {
  }

  /** Text that neither starts nor ends with whitespace is left as it is by trimming. */
  lemma TrimmedIsKept(s: string)
    requires s != [] && !IsSpace(s[0]) && !IsSpace(s[|s| - 1])
    ensures Strip(s) == s
  {
    assert StripStart(s) == s;
  }

  /** The text the guard inspects for the two example queries below. */
  lemma Inspected(q: string, u: string)
    requires (q == "select created_at" && u == "SELECT CREATED_AT") ||
             (q == "select un" && u == "SELECT UN")
    ensures Strip(Upper(Strip(q))) == u
  {
    TrimmedIsKept(q);
    UpperOf(q, u);
    TrimmedIsKept(u);
  }

  lemma UpperOf(q: string, u: string)
    requires (q == "select created_at" && u == "SELECT CREATED_AT") ||
             (q == "select un" && u == "SELECT UN")
    ensures Upper(q) == u
  {
  }

  lemma CreatedAtText(u: string)
    requires u == "SELECT CREATED_AT"
    ensures StartsWith(u, "SELECT") && OccursAt(u, Prohibited[5], 7)
  {
  }

  /** A column named `created_at` is refused, though the query only reads. */
  lemma CreatedAtIsRefused(q: string)
    requires q == "select created_at"
    ensures Check(q) == Forbidden
  {
    CreatedAtInspected(q);
    KeywordAnywhereRefuses(q, 5, 7);
  }

  lemma CreatedAtInspected(q: string)
    requires q == "select created_at"
    ensures StartsWith(Strip(Upper(Strip(q))), "SELECT") && OccursAt(Strip(Upper(Strip(q))), Prohibited[5], 7)
  {
    var u := "SELECT CREATED_AT";
    Inspected(q, u);
    CreatedAtText(u);
  }

  /** Every text containing `EXECUTE` contains `EXEC`: the last keyword adds nothing to the list. */
  lemma ExecuteIsRedundant(s: string)
    requires Contains(s, "EXECUTE")
    ensures Contains(s, "EXEC")
  {
    var i :| 0 <= i <= |s| - 7 && OccursAt(s, "EXECUTE", i);
    assert s[i..i + 4] == s[i..i + 7][..4];
    assert OccursAt(s, "EXEC", i);
  }

  /** A plain read is run. */
  lemma PlainSelectRuns(q: string)
    requires q == "select un"
    ensures Check(q) == Run
  {
    var u := "SELECT UN";
    Inspected(q, u);
    PlainText(u);
  }

  /** The plain read starts with `SELECT` and holds no prohibited keyword. */
  lemma PlainText(u: string)
    requires u == "SELECT UN"
    ensures StartsWith(u, "SELECT") && !HasProhibited(u)
  {
    forall k | 0 <= k < |Prohibited| ensures !Contains(u, Prohibited[k]) {
      NotIn(u, Prohibited[k]);
    }
  }

  lemma NotIn(u: string, key: string)
    requires u == "SELECT UN" && key in Prohibited
    ensures !Contains(u, key)
  {
    forall i | 0 <= i <= |u| - |key| ensures !OccursAt(u, key, i) {
      assert u[i..i + |key|][0] == u[i];
      if u[i] == key[0] {
        assert u[i..i + |key|][1] == u[i + 1];
        assert u[i..i + |key|][2] == u[i + 2];
      }
    }
  }
}
