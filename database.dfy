/** database.go: how the users table's needs_password_change flag is written
    and read back, and the LIKE pattern of the contact search. The SQL
    statements themselves run in SQLite; here a query's outcome is an input
    and a statement's arguments are the output. */
module Database {
  import opened Base

  /** The dynamic value database/sql scans into an interface{} for the
      needs_password_change column. `Other` is any other Go type the driver
      may return ([]byte, float64, time.Time), named by its type. */
  datatype SqlValue = Int64(i: int) | Bool(b: bool) | Text(s: string) | Null | Other(goType: string)

  /** A User row. */
  datatype User = User(username: string, password: string, contactId: Option<string>, needPasswordChange: bool)

  /** GetUser's type switch. Only an integer other than 1, the boolean false,
      or a string other than "1" and "true" means "no change needed"; NULL and
      every unknown type default to needing a change. */
  function DecodeNeedsChange(v: SqlValue): (needs: bool)
    ensures !needs <==> (v.Int64? && v.i != 1) || v == Bool(false) ||
                        (v.Text? && v.s != "1" && v.s != "true")
  {
    match v
    case Int64(i) => i == 1
    case Bool(b) => b
    case Text(s) => s == "1" || s == "true"
    case Null => true
    case Other(_) => true
  }

  /** CreateUser's encoding of the flag: 1 for true, 0 for false. */
  function EncodeNeedsChange(needs: bool): (stored: int)
    ensures stored == 0 || stored == 1
    ensures stored == 1 <==> needs
  {
    if needs then 1 else 0
  }

  /** Decoding what CreateUser stored gives the flag back, whether the driver
      returns the column as an int64 or, for a BOOLEAN column, as a bool. */
  lemma NeedsChangeRoundTrip(needs: bool)
    ensures DecodeNeedsChange(Int64(EncodeNeedsChange(needs))) == needs
    ensures DecodeNeedsChange(Bool(EncodeNeedsChange(needs) != 0)) == needs
  {
  }

  /** What QueryRow(...).Scan gave GetUser: no row, another error, or the four
      columns. */
  datatype UserRow =
    | NoRows
    | QueryFailed(err: Error)
    | Row(username: string, password: string, contactId: Option<string>, needsChange: SqlValue)

  /** GetUser: "user not found: <name>" for a missing row, "database error: <err>"
      for any other failure, else the user with the decoded flag. */
  function GetUser(username: string, row: UserRow): (r: Result<User>)
    ensures row.NoRows? ==> r == Err(Error("user not found: " + username))
    ensures row.QueryFailed? ==> r == Err(Error("database error: " + row.err.message))
    ensures row.Row? ==> r.Ok? && r.value.username == row.username && r.value.password == row.password &&
                         r.value.contactId == row.contactId &&
                         r.value.needPasswordChange == DecodeNeedsChange(row.needsChange)
  {
    match row
    case NoRows => Err(Error("user not found: " + username))
    case QueryFailed(err) => Err(Error("database error: " + err.message))
    case Row(name, password, contactId, needsChange) =>
      Ok(User(name, password, contactId, DecodeNeedsChange(needsChange)))
  }

  /** The arguments of CreateUser's INSERT, in column order. */
  datatype UserInsert = UserInsert(username: string, password: string, contactId: Option<string>, needsChange: int)

  function CreateUser(user: User): (ins: UserInsert)
    ensures ins.username == user.username && ins.password == user.password && ins.contactId == user.contactId
    ensures ins.needsChange == 1 <==> user.needPasswordChange
    ensures ins.needsChange == 0 <==> !user.needPasswordChange
  {
    UserInsert(user.username, user.password, user.contactId, EncodeNeedsChange(user.needPasswordChange))
  }

  /** A user inserted by CreateUser and read back by GetUser is the same user. */
  lemma CreatedUserReadsBack(user: User)
    ensures var ins := CreateUser(user);
            GetUser(user.username, Row(ins.username, ins.password, ins.contactId, Int64(ins.needsChange))) == Ok(user)
  {
    NeedsChangeRoundTrip(user.needPasswordChange);
  }

  /** UserNeedsPasswordChange scans the column into an int: a scan failure
      (NULL among them) gives (false, err), else the answer is "equals 1". */
  function UserNeedsPasswordChange(scanned: Result<int>): (r: (bool, Option<Error>))
    ensures scanned.Err? ==> r == (false, Some(scanned.error))
    ensures scanned.Ok? ==> r.1.None? && (r.0 <==> scanned.value == 1)
  {
    match scanned
    case Err(e) => (false, Some(e))
    case Ok(n) => (n == 1, None)
  }

  /** On an integer column the two readers agree; on NULL they do not: GetUser
      says a change is needed, UserNeedsPasswordChange reports an error and false. */
  lemma NeedsChangeReadersAgreeOnIntegers(n: int, scanErr: Error)
    ensures UserNeedsPasswordChange(Ok(n)).0 == DecodeNeedsChange(Int64(n))
    ensures DecodeNeedsChange(Null) && !UserNeedsPasswordChange(Err(scanErr)).0
  {
  }

  // ---------------------------------------------------------------------------
  // Contact search

  /** SearchContacts' LIKE argument: the keyword between two '%' wildcards,
      with nothing escaped. */
  function SearchPattern(keyword: string): (p: string)
    ensures |p| == |keyword| + 2 && p[0] == '%' && p[|p| - 1] == '%' && p[1..|p| - 1] == keyword
  {
    "%" + keyword + "%"
  }

  /** The four arguments of the query, for first_name, last_name, email and
      phone: the same pattern each time. */
  function SearchArgs(keyword: string): (args: seq<string>)
    ensures |args| == 4
    ensures forall i :: 0 <= i < 4 ==> args[i] == SearchPattern(keyword)
  {
    var p := SearchPattern(keyword);
    [p, p, p, p]
  }

  /** SQLite's LIKE folds ASCII letters to one case. */
  function Fold(c: char): char {
    if 'A' <= c <= 'Z' then (c as int + 32) as char else c
  }

  function FoldAll(s: string): (f: string)
    ensures |f| == |s|
    ensures forall i :: 0 <= i < |s| ==> f[i] == Fold(s[i])
  {
    seq(|s|, i requires 0 <= i < |s| => Fold(s[i]))
  }

  /** SQLite's LIKE without ESCAPE: '%' matches any run of characters, '_' any
      one character, every other character itself up to ASCII case. */
  predicate Like(pattern: string, s: string)
    decreases |pattern|, |s|
  {
    if pattern == [] then s == []
    else if pattern[0] == '%' then Like(pattern[1..], s) || (s != [] && Like(pattern, s[1..]))
    else s != [] && (pattern[0] == '_' || Fold(pattern[0]) == Fold(s[0])) && Like(pattern[1..], s[1..])
  }

  predicate NoWildcards(keyword: string) {
    forall i :: 0 <= i < |keyword| ==> keyword[i] != '%' && keyword[i] != '_'
  }

  /** `keyword` occurs in `s` at position `i`, ignoring ASCII case. */
  predicate OccursAt(s: string, keyword: string, i: int) {
    0 <= i && i + |keyword| <= |s| && FoldAll(s[i..i + |keyword|]) == FoldAll(keyword)
  }

  /** `keyword` occurs in `s` at some position, ignoring ASCII case. */
  ghost predicate ContainsFolded(s: string, keyword: string) {
    exists i :: OccursAt(s, keyword, i)
  }

  lemma {:induction false} PercentMatchesAll(s: string)
    ensures Like("%", s)
  {
    if s != [] {
      PercentMatchesAll(s[1..]);
    }
  }

  /** A literal followed by '%' matches exactly the strings it begins. */
  lemma {:induction false} LiteralThenPercent(keyword: string, s: string)
    requires NoWildcards(keyword)
    ensures Like(keyword + "%", s) <==>
              |keyword| <= |s| && FoldAll(s[..|keyword|]) == FoldAll(keyword)
  {
    if keyword == [] {
      assert keyword + "%" == "%";
      PercentMatchesAll(s);
    } else {
      var p := keyword + "%";
      assert p[0] == keyword[0];
      assert p[1..] == keyword[1..] + "%";
      assert NoWildcards(keyword[1..]) by {
        forall i | 0 <= i < |keyword[1..]| ensures keyword[1..][i] != '%' && keyword[1..][i] != '_' {
          assert keyword[1..][i] == keyword[i + 1];
        }
      }
      assert keyword[0] != '%' && keyword[0] != '_';
      if s == [] {
        assert !Like(p, s);
      } else {
        LiteralThenPercent(keyword[1..], s[1..]);
        var k := |keyword|;
        if k <= |s| {
          assert s[1..][..k - 1] == s[1..k];
          calc {
            FoldAll(s[..k]) == FoldAll(keyword);
          <==> { assert FoldAll(s[..k]) == [Fold(s[0])] + FoldAll(s[1..k]);
                 assert FoldAll(keyword) == [Fold(keyword[0])] + FoldAll(keyword[1..]); }
            Fold(s[0]) == Fold(keyword[0]) && FoldAll(s[1..k]) == FoldAll(keyword[1..]);
          }
        }
      }
    }
  }

  /** A leading '%' lets the rest of the pattern match any suffix. */
  lemma {:induction false} PercentThen(q: string, s: string)
    ensures Like("%" + q, s) <==> exists i :: 0 <= i <= |s| && Like(q, s[i..])
  {
    var p := "%" + q;
    assert p[0] == '%' && p[1..] == q;
    if s == [] {
      assert Like(p, s) <==> Like(q, s);
      assert s[0..] == s;
    } else {
      PercentThen(q, s[1..]);
      if Like(p, s) {
        if Like(q, s) {
          assert s[0..] == s;
        } else {
          var i :| 0 <= i <= |s[1..]| && Like(q, s[1..][i..]);
          assert s[1..][i..] == s[i + 1..];
        }
      }
      if exists i :: 0 <= i <= |s| && Like(q, s[i..]) {
        var i :| 0 <= i <= |s| && Like(q, s[i..]);
        if i == 0 {
          assert s[0..] == s;
        } else {
          assert s[1..][i - 1..] == s[i..];
        }
      }
    }
  }

  /** The search pattern of a keyword without wildcards matches a column value
      exactly when the keyword occurs in it, ignoring ASCII case. */
  lemma SearchPatternMatches(keyword: string, s: string)
    requires NoWildcards(keyword)
    ensures Like(SearchPattern(keyword), s) <==> ContainsFolded(s, keyword)
  {
    var q := keyword + "%";
    assert SearchPattern(keyword) == "%" + q;
    PercentThen(q, s);
    if Like(SearchPattern(keyword), s) {
      var i :| 0 <= i <= |s| && Like(q, s[i..]);
      LiteralThenPercent(keyword, s[i..]);
      assert s[i..][..|keyword|] == s[i..i + |keyword|];
      assert OccursAt(s, keyword, i);
    }
    if ContainsFolded(s, keyword) {
      var i :| OccursAt(s, keyword, i);
      LiteralThenPercent(keyword, s[i..]);
      assert s[i..][..|keyword|] == s[i..i + |keyword|];
    }
  }

  /** Wildcards in the keyword are not escaped: searching for "%" matches every
      contact. */
  lemma PercentKeywordMatchesAll(s: string)
    ensures Like(SearchPattern("%"), s)
  {
    assert SearchPattern("%") == "%" + "%%";
    PercentThen("%%", s);
    assert "%%" == "%" + "%";
    PercentThen("%", s);
    PercentMatchesAll(s);
    assert s[0..] == s;
  }
}
