/**
 * The admin check of the main application: the signed-in user's email
 * against the comma-separated list in `AUTH0_ADMIN_EMAILS`. The variable and
 * the session are inputs.
 */
module Admin {
  import opened Wrappers
  import opened Text
  import Auth0

  /** `Array.prototype.map` on a list of strings. */
  function MapStrings(f: string -> string, parts: seq<string>): (r: seq<string>)
    ensures |r| == |parts|
    ensures forall k :: 0 <= k < |r| ==> r[k] == f(parts[k])
  {
    if parts == [] then [] else [f(parts[0])] + MapStrings(f, parts[1..])
  }

  /** `.map((value) => value.trim())`. */
  function TrimAll(parts: seq<string>): (r: seq<string>)
    ensures |r| == |parts|
    ensures forall k :: 0 <= k < |r| ==> r[k] == Trim(parts[k])
  {
    MapStrings(Trim, parts)
  }

  lemma TrimAllStep(parts: seq<string>)
    requires parts != []
    ensures TrimAll(parts) == [Trim(parts[0])] + TrimAll(parts[1..])
  {
  }

  /** `.filter(Boolean)`: drops the empty strings, keeping the order. */
  function DropEmpty(parts: seq<string>): (r: seq<string>)
    ensures |r| <= |parts|
    ensures forall k :: 0 <= k < |r| ==> r[k] != ""
  {
    if parts == [] then []
    else
      var rest := DropEmpty(parts[1..]);
      if parts[0] == "" then rest else [parts[0]] + rest
  }

  /** The kept pieces are exactly the non-empty ones. */
  lemma {:induction false} DropEmptyMembership(parts: seq<string>, e: string)
    ensures e in DropEmpty(parts) <==> e in parts && e != ""
  {
    if parts != [] {
      DropEmptyMembership(parts[1..], e);
      assert e in parts <==> e == parts[0] || e in parts[1..];
    }
  }

  /** An admin entry: non-empty, with no white space at either end. */
  predicate CleanEntry(x: string) {
    x != "" && !IsWhitespace(x[0]) && !IsWhitespace(x[|x| - 1])
  }

  /** `parseAdminEmails`: every entry is non-empty and has no white space
      at either end. */
  function ParseAdminEmails(env: Option<string>): (r: seq<string>)
    ensures env.None? ==> r == []
    ensures forall k :: 0 <= k < |r| ==> CleanEntry(r[k])
  {
    if env.None? then []
    else
      var trimmed := TrimAll(Split(env.value, ','));
      TrimmedEnds(Split(env.value, ','));
      KeptEnds(trimmed);
      DropEmpty(trimmed)
  }

  /** Every trimmed piece is empty or a clean entry. */
  lemma TrimmedEnds(parts: seq<string>)
    ensures forall k :: 0 <= k < |TrimAll(parts)| ==> TrimAll(parts)[k] == [] || CleanEntry(TrimAll(parts)[k])
  {
    forall k | 0 <= k < |TrimAll(parts)|
      ensures TrimAll(parts)[k] == [] || CleanEntry(TrimAll(parts)[k])
    {
      assert TrimAll(parts)[k] == Trim(parts[k]);
    }
  }

  /** Dropping the empty pieces leaves only clean entries. */
  lemma KeptEnds(ts: seq<string>)
    requires forall k :: 0 <= k < |ts| ==> ts[k] == [] || CleanEntry(ts[k])
    ensures forall k :: 0 <= k < |DropEmpty(ts)| ==> CleanEntry(DropEmpty(ts)[k])
  {
    var r := DropEmpty(ts);
    forall k | 0 <= k < |r|
      ensures CleanEntry(r[k])
    {
      DropEmptyMembership(ts, r[k]);
      assert r[k] in r;
      var j :| 0 <= j < |ts| && ts[j] == r[k];
    }
  }

  /** The entries are exactly the non-empty trimmed pieces between commas. */
  lemma ParseMembership(env: string, e: string)
    ensures var parts := Split(env, ',');
            e in ParseAdminEmails(Some(env)) <==> e != "" && exists k :: 0 <= k < |parts| && Trim(parts[k]) == e
  {
    var parts := Split(env, ',');
    var trimmed := TrimAll(parts);
    DropEmptyMembership(trimmed, e);
    if e in trimmed {
      var k :| 0 <= k < |trimmed| && trimmed[k] == e;
      assert Trim(parts[k]) == e;
    }
    if exists k :: 0 <= k < |parts| && Trim(parts[k]) == e {
      var k :| 0 <= k < |parts| && Trim(parts[k]) == e;
      assert trimmed[k] == e;
    }
  }

  /** No entry contains a comma. */
  lemma EntriesHaveNoComma(env: string, e: string)
    requires e in ParseAdminEmails(Some(env))
    ensures ',' !in e
  {
    ParseMembership(env, e);
    var parts := Split(env, ',');
    var k :| 0 <= k < |parts| && Trim(parts[k]) == e;
    TrimIsSubstring(parts[k]);
    var i, j :| 0 <= i <= j <= |parts[k]| && e == parts[k][i..j];
    AbsentFromSlice(parts[k], i, j, ',');
  }

  /** A character missing from a string is missing from each slice of it. */
  lemma AbsentFromSlice(s: string, i: int, j: int, c: char)
    requires 0 <= i <= j <= |s| && c !in s
    ensures c !in s[i..j]
  {
    forall k | 0 <= k < j - i
      ensures s[i..j][k] != c
    {
      assert s[i..j][k] == s[i + k];
    }
  }

  /** Trimming keeps a contiguous piece of the string. */
  lemma TrimIsSubstring(s: string)
    ensures exists i, j :: 0 <= i <= j <= |s| && Trim(s) == s[i..j]
  {
    var r := Trim(s);
    TrimRemovesOnlyWhitespace(s);
    var lo :| TrimmedAt(s, r, lo);
    assert r == s[lo..lo + |r|];
  }

  /** The optional user-like argument. */
  datatype UserLike = UserLike(email: Option<string>)

  /** The email looked at: the argument's when it has one, otherwise the
      session user's. */
  function AdminEmail(user: Option<UserLike>, session: Option<Auth0.Session>): (email: Option<string>)
    ensures user.Some? && Present(user.value.email) ==> email == user.value.email
    ensures !(user.Some? && Present(user.value.email)) ==>
              email == (var u := Auth0.GetOptionalUser(session); if u.Some? then u.value.email else None)
  {
    if user.Some? && Present(user.value.email) then user.value.email
    else
      var u := Auth0.GetOptionalUser(session);
      if u.Some? then u.value.email else None
  }

  /** `getIsAdmin`: exact, case-sensitive membership of the email. */
  function GetIsAdmin(user: Option<UserLike>, session: Option<Auth0.Session>, env: Option<string>): (b: bool)
    ensures !Present(AdminEmail(user, session)) ==> !b
    ensures b <==> Present(AdminEmail(user, session)) && AdminEmail(user, session).value in ParseAdminEmails(env)
  {
    var email := AdminEmail(user, session);
    if !Present(email) then false
    else email.value in ParseAdminEmails(env)
  }

  /** An email written with surrounding white space is never listed, since
      the entries are trimmed, and so is never an admin. */
  lemma PaddedEmailIsNotListed(env: Option<string>, e: string)
    requires e != "" && (IsWhitespace(e[0]) || IsWhitespace(e[|e| - 1]))
    ensures e !in ParseAdminEmails(env)
  {
    var r := ParseAdminEmails(env);
    assert forall k :: 0 <= k < |r| ==> r[k] != e;
  }

  lemma PaddedEmailIsNeverAdmin(user: Option<UserLike>, session: Option<Auth0.Session>, env: Option<string>)
    requires Present(AdminEmail(user, session))
    requires var e := AdminEmail(user, session).value; IsWhitespace(e[0]) || IsWhitespace(e[|e| - 1])
    ensures !GetIsAdmin(user, session, env)
  {
    PaddedEmailIsNotListed(env, AdminEmail(user, session).value);
  }

  /** A list of one entry without a comma makes exactly its trimmed value the
      admin. */
  lemma SingleEntry(user: Option<UserLike>, session: Option<Auth0.Session>, entry: string)
    requires ',' !in entry && Present(AdminEmail(user, session))
    ensures GetIsAdmin(user, session, Some(entry)) <==> AdminEmail(user, session).value == Trim(entry)
  {
    SplitWithoutSeparator(entry, ',');
    ParseMembership(entry, AdminEmail(user, session).value);
  }

  /** A worked case: " a@x , ,b@y" lists exactly "a@x" and "b@y". */
  lemma PaddedListExample()
    ensures ParseAdminEmails(Some(" a@x , ,b@y")) == ["a@x", "b@y"]
  {
    ExamplePieces();
    ExampleTrimAll();
    ExampleDropEmpty();
  }

  lemma ExampleTrimAll()
    ensures TrimAll([" a@x ", " ", "b@y"]) == ["a@x", "", "b@y"]
  {
    TrimAllThree(" a@x ", " ", "b@y");
    TrimFirst();
    TrimSecond();
    TrimThird();
  }

  lemma TrimAllThree(p0: string, p1: string, p2: string)
    ensures TrimAll([p0, p1, p2]) == [Trim(p0), Trim(p1), Trim(p2)]
  {
    var t := [p0, p1, p2];
    TrimAllStep(t);
    assert t[1..] == [p1, p2];
    TrimAllStep([p1, p2]);
    assert [p1, p2][1..] == [p2];
    TrimAllStep([p2]);
    assert [p2][1..] == [];
  }

  lemma ExampleDropEmpty()
    ensures DropEmpty(["a@x", "", "b@y"]) == ["a@x", "b@y"]
  {
    var t := ["a@x", "", "b@y"];
    DropEmptyStep(t);
    DropEmptyStep(t[1..]);
    DropEmptyStep(t[2..]);
    assert t[1..][1..] == t[2..] && t[2..][1..] == [];
  }

  /** One step of `DropEmpty`. */
  lemma DropEmptyStep(parts: seq<string>)
    requires parts != []
    ensures DropEmpty(parts) == if parts[0] == "" then DropEmpty(parts[1..]) else [parts[0]] + DropEmpty(parts[1..])
  {
  }

  lemma ExamplePieces()
    ensures Split(" a@x , ,b@y", ',') == [" a@x ", " ", "b@y"]
  {
    var parts := [" a@x ", " ", "b@y"];
    assert Join(parts, ',') == " a@x , ,b@y" by {
      assert Join(parts[2..], ',') == "b@y";
      assert Join(parts[1..], ',') == " ,b@y";
    }
    SplitJoin(parts, ',');
  }

  lemma TrimFirst()
    ensures Trim(" a@x ") == "a@x"
  {
    assert " a@x " == [' '] + "a@x" + [' '];
    TrimOfPadded("a@x");
  }

  lemma TrimSecond()
    ensures Trim(" ") == ""
  {
    assert TrimEnd(" ") == TrimEnd("");
  }

  lemma TrimThird()
    ensures Trim("b@y") == "b@y"
  {
    TrimOfClean("b@y");
  }

  /** Trimming a string with no white space at either end keeps it. */
  lemma TrimOfClean(c: string)
    requires c != [] && !IsWhitespace(c[0]) && !IsWhitespace(c[|c| - 1])
    ensures Trim(c) == c
  {
    assert TrimEnd(c) == c;
  }

  /** Trimming one space off each side. */
  lemma TrimOfPadded(c: string)
    requires c != [] && !IsWhitespace(c[0]) && !IsWhitespace(c[|c| - 1])
    ensures Trim([' '] + c + [' ']) == c
  {
    var s := [' '] + c + [' '];
    assert s[..|s| - 1] == [' '] + c;
    assert TrimEnd(s) == TrimEnd([' '] + c);
    assert TrimEnd([' '] + c) == [' '] + c;
    assert ([' '] + c)[1..] == c;
    assert TrimStart([' '] + c) == TrimStart(c);
  }
}
