/**
 * `UserManager` of `lib/user-manager.ts`: the anonymous user id kept in a
 * cookie. The browser's cookie store is a list of name-value pairs in the
 * order `document.cookie` shows them; writing a cookie replaces the pair of
 * that name in place or appends a new one, and writing it with an expiry in
 * the past removes it.
 */
module UserManager {
  import opened Js

  const CookieName := "mutumwa_user_id"

  /** What `clearUserId` writes. */
  const ClearCookie := CookieName + "=; expires=Thu, 01 Jan 1970 00:00:00 UTC; path=/;"

  /** A cookie name: not empty, no whitespace, no '=' and no ';'. */
  predicate Token(s: string)
  {
    s != [] && NoWhitespace(s) && '=' !in s && ';' !in s
  }

  /** A cookie value: no whitespace and no ';' (section 4.1.1 of RFC 6265). */
  predicate Octets(s: string)
  {
    NoWhitespace(s) && ';' !in s
  }

  lemma CookieNameIsToken()
    ensures Token(CookieName)
  {
  }

  // ---------------------------------------------------------------------
  // Reading `document.cookie`

  /** The index of the first string that starts with `p`, or -1. */
  function FindPrefixed(strings: seq<string>, p: string): (k: int)
    ensures k == -1 <==> forall i :: 0 <= i < |strings| ==> !StartsWith(strings[i], p)
    ensures k != -1 ==>
      0 <= k < |strings| && StartsWith(strings[k], p)
      && forall i :: 0 <= i < k ==> !StartsWith(strings[i], p)
  {
    if strings == [] then -1
    else if StartsWith(strings[0], p) then 0
    else
      var k := FindPrefixed(strings[1..], p);
      if k == -1 then -1 else k + 1
  }

  /** Every segment trimmed. */
  function TrimAll(segments: seq<string>): (r: seq<string>)
    ensures |r| == |segments| && forall i :: 0 <= i < |r| ==> r[i] == Trim(segments[i])
  {
    seq(|segments|, i requires 0 <= i < |segments| => Trim(segments[i]))
  }

  /**
   * `cookies.find(cookie => cookie.trim().startsWith(`${name}=`))`: the
   * index of the first segment that names the cookie, or -1.
   */
  function FindNamed(segments: seq<string>, name: string): (k: int)
    ensures k == -1 <==> forall i :: 0 <= i < |segments| ==> !StartsWith(Trim(segments[i]), name + "=")
    ensures k != -1 ==>
      0 <= k < |segments| && StartsWith(Trim(segments[k]), name + "=")
      && forall i :: 0 <= i < k ==> !StartsWith(Trim(segments[i]), name + "=")
  {
    FindPrefixed(TrimAll(segments), name + "=")
  }

  /** A segment whose trim starts with `name=` holds an '='. */
  lemma PrefixedHasEquals(segment: string, name: string)
    requires StartsWith(Trim(segment), name + "=")
    ensures '=' in segment
  {
    var n := |name|;
    var t := TrimStart(segment);
    var u := TrimEnd(t);
    assert u[n] == (name + "=")[n] == '=';
    assert t[n] == u[n];
    assert segment[|segment| - |t| + n] == t[n];
  }

  /** `userIdCookie.split('=')[1]`: the text between the first and the second '='. */
  function ValueOf(segment: string): (v: string)
    requires '=' in segment
    ensures '=' !in v
    ensures forall c :: c in v ==> c in segment
    ensures var i := FirstIndex(segment, '=');
      i < |segment| && v == segment[i + 1..][..FirstIndex(segment[i + 1..], '=')]
  {
    SplitContains(segment, '=');
    var i := FirstIndex(segment, '=');
    assert Split(segment, '=')[1] == Split(segment[i + 1..], '=')[0];
    Split(segment, '=')[1]
  }

  /**
   * The reading half of `getUserId`, for the cookie `name`: its value in
   * the cookie header, or `None` when no segment names it.
   */
  function ReadCookie(cookie: string, name: string): (r: Option<string>)
    ensures r.None? <==> FindNamed(Split(cookie, ';'), name) == -1
    ensures r.Some? ==> '=' !in r.value && ';' !in r.value
    ensures r.Some? ==>
      var segments := Split(cookie, ';');
      var k := FindNamed(segments, name);
      0 <= k < |segments| && '=' in segments[k] && r.value == ValueOf(segments[k])
  {
    var segments := Split(cookie, ';');
    var k := FindNamed(segments, name);
    if k == -1 then None
    else
      var segment := segments[k];
      PrefixedHasEquals(segment, name);
      assert ';' !in segment;
      Some(ValueOf(segment))
  }

  /** The value of a segment `<name>=<value>` is the value, when neither has '='. */
  lemma ValueOfPair(name: string, value: string)
    requires '=' !in name && '=' !in value
    ensures '=' in name + "=" + value && ValueOf(name + "=" + value) == value
  {
    assert name + "=" + value == name + ['='] + value;
    SplitAt(name, '=', value);
    SplitWithout(value, '=');
  }

  // ---------------------------------------------------------------------
  // Writing a cookie

  /** `setUserId`'s cookie string; `expires` is the `toUTCString()` of ten years on. */
  function CookieString(userId: string, expires: string): (s: string)
    ensures StartsWith(s, CookieName + "=" + userId + "; expires=" + expires)
    ensures |s| >= 22 && s[|s| - 22..] == "; path=/; SameSite=Lax"
  {
    var head := CookieName + "=" + userId + "; expires=" + expires;
    var s := head + "; path=/; SameSite=Lax";
    assert s[..|head|] == head;
    s
  }

  /** The first segment of `name=value;...` is `name=value`, and it names the cookie. */
  lemma FirstSegmentNames(name: string, value: string, attributes: string)
    requires Token(name) && ';' !in value
    ensures var segments := Split(name + "=" + value + ";" + attributes, ';');
      segments[0] == name + "=" + value && FindNamed(segments, name) == 0
  {
    var p := name + "=";
    var pair := p + value;
    assert name + "=" + value + ";" + attributes == pair + [';'] + attributes;
    assert ';' !in pair;
    SplitAt(pair, ';', attributes);
    assert pair[..|p|] == p;
    NoWhitespaceConcat(name, "=");
    TrimKeepsPrefix(pair, p);
  }

  /** A string `name=value;...`, read as a cookie header, gives the value of `name`. */
  lemma WrittenReadsBack(name: string, value: string, attributes: string)
    requires Token(name) && '=' !in value && ';' !in value
    ensures ReadCookie(name + "=" + value + ";" + attributes, name) == Some(value)
  {
    var cookie := name + "=" + value + ";" + attributes;
    var pair := name + "=" + value;
    FirstSegmentNames(name, value, attributes);
    var segments := Split(cookie, ';');
    assert segments[0] == pair;
    ValueOfPair(name, value);
  }

  /** The string `setUserId` writes, read as a cookie header, gives the id back. */
  lemma CookieStringReadsBack(userId: string, expires: string)
    requires '=' !in userId && ';' !in userId
    ensures ReadCookie(CookieString(userId, expires), CookieName) == Some(userId)
  {
    CookieNameIsToken();
    var attributes := " expires=" + expires + "; path=/; SameSite=Lax";
    assert CookieString(userId, expires) == CookieName + "=" + userId + ";" + attributes;
    WrittenReadsBack(CookieName, userId, attributes);
  }

  // ---------------------------------------------------------------------
  // The browser's cookie store

  datatype Cookie = Cookie(name: string, value: string)

  /** Every cookie well formed, and no two with the same name. */
  predicate WellFormed(jar: seq<Cookie>)
  {
    && (forall i :: 0 <= i < |jar| ==> Token(jar[i].name) && Octets(jar[i].value))
    && (forall i, j :: 0 <= i < j < |jar| ==> jar[i].name != jar[j].name)
  }

  /** `name=value` */
  function Pair(c: Cookie): string
  {
    c.name + "=" + c.value
  }

  /** The segments of `document.cookie`: the pairs, each after the first led by a space. */
  function Segments(jar: seq<Cookie>): (r: seq<string>)
    ensures |r| == |jar|
    ensures forall i :: 0 <= i < |r| ==> r[i] == if i == 0 then Pair(jar[i]) else " " + Pair(jar[i])
  {
    seq(|jar|, i requires 0 <= i < |jar| => if i == 0 then Pair(jar[i]) else " " + Pair(jar[i]))
  }

  /** `document.cookie`: the pairs joined by "; ". */
  function Header(jar: seq<Cookie>): string
  {
    Join(Segments(jar), ';')
  }

  /** The index of the cookie with the name, or -1. */
  function FindCookie(jar: seq<Cookie>, name: string): (k: int)
    ensures k == -1 <==> forall i :: 0 <= i < |jar| ==> jar[i].name != name
    ensures k != -1 ==>
      0 <= k < |jar| && jar[k].name == name && forall i :: 0 <= i < k ==> jar[i].name != name
  {
    if jar == [] then -1
    else if jar[0].name == name then 0
    else
      var k := FindCookie(jar[1..], name);
      if k == -1 then -1 else k + 1
  }

  /** Writing a cookie: the one of that name takes the value in place, or a new one goes last. */
  function Store(jar: seq<Cookie>, name: string, value: string): (r: seq<Cookie>)
    ensures FindCookie(r, name) != -1 && r[FindCookie(r, name)] == Cookie(name, value)
    ensures |r| == if FindCookie(jar, name) == -1 then |jar| + 1 else |jar|
    ensures forall i :: 0 <= i < |jar| && jar[i].name != name ==> r[i] == jar[i]
  {
    var k := FindCookie(jar, name);
    if k == -1 then
      var r := jar + [Cookie(name, value)];
      assert forall i :: 0 <= i < |jar| ==> r[i] == jar[i];
      assert r[|jar|].name == name;
      assert FindCookie(r, name) == |jar|;
      r
    else
      var r := jar[k := Cookie(name, value)];
      assert forall i :: 0 <= i < k ==> r[i] == jar[i];
      assert r[k].name == name;
      assert FindCookie(r, name) == k;
      r
  }

  /** Writing a cookie that has already expired: the cookies of that name go, the rest stay in order. */
  function Forget(jar: seq<Cookie>, name: string): (r: seq<Cookie>)
    ensures forall c :: c in r <==> c in jar && c.name != name
  {
    if jar == [] then []
    else (if jar[0].name == name then [] else [jar[0]]) + Forget(jar[1..], name)
  }

  /** Removing cookies works cookie by cookie, so the kept ones stay in their order. */
  lemma {:induction false} ForgetConcat(a: seq<Cookie>, b: seq<Cookie>, name: string)
    ensures Forget(a + b, name) == Forget(a, name) + Forget(b, name)
    decreases |a|
  {
    if a == [] {
      assert a + b == b;
    } else {
      assert (a + b)[0] == a[0];
      assert (a + b)[1..] == a[1..] + b;
      ForgetConcat(a[1..], b, name);
    }
  }

  /** Writing a well-formed cookie keeps the store well formed. */
  lemma StoreWellFormed(jar: seq<Cookie>, name: string, value: string)
    requires WellFormed(jar) && Token(name) && Octets(value)
    ensures WellFormed(Store(jar, name, value))
  {
    var r := Store(jar, name, value);
    var k := FindCookie(jar, name);
    if k == -1 {
      assert r == jar + [Cookie(name, value)];
    } else {
      assert r == jar[k := Cookie(name, value)];
    }
  }

  /** The rest of a well-formed store is well formed and never repeats its first name. */
  lemma WellFormedTail(c: Cookie, rest: seq<Cookie>)
    requires WellFormed([c] + rest)
    ensures Token(c.name) && Octets(c.value) && WellFormed(rest)
    ensures forall d :: d in rest ==> d.name != c.name
  {
    var jar := [c] + rest;
    assert jar[0] == c;
    assert forall i :: 0 <= i < |rest| ==> jar[i + 1] == rest[i];
    forall d | d in rest ensures d.name != c.name {
      var m :| 0 <= m < |rest| && rest[m] == d;
      assert jar[m + 1] == d;
    }
  }

  /** A well-formed cookie in front of a well-formed store not holding its name. */
  lemma WellFormedCons(c: Cookie, rest: seq<Cookie>)
    requires Token(c.name) && Octets(c.value) && WellFormed(rest)
    requires forall d :: d in rest ==> d.name != c.name
    ensures WellFormed([c] + rest)
  {
    var jar := [c] + rest;
    assert jar[0] == c;
    assert forall i :: 0 < i < |jar| ==> jar[i] == rest[i - 1];
    forall i, j | 0 <= i < j < |jar| ensures jar[i].name != jar[j].name {
      if i > 0 {
        assert jar[i] == rest[i - 1] && jar[j] == rest[j - 1];
      } else {
        assert jar[j] == rest[j - 1] && rest[j - 1] in rest;
      }
    }
  }

  /** Removing cookies keeps the store well formed. */
  lemma {:induction false} ForgetWellFormed(jar: seq<Cookie>, name: string)
    requires WellFormed(jar)
    ensures WellFormed(Forget(jar, name))
  {
    if jar != [] {
      var rest := jar[1..];
      assert jar == [jar[0]] + rest;
      WellFormedTail(jar[0], rest);
      ForgetWellFormed(rest, name);
      var kept := Forget(rest, name);
      if jar[0].name != name {
        assert Forget(jar, name) == [jar[0]] + kept;
        WellFormedCons(jar[0], kept);
      } else {
        assert Forget(jar, name) == kept;
      }
    }
  }

  /** A well-formed pair starts with `name=` exactly when it is the cookie called `name`. */
  lemma PairMatches(c: Cookie, name: string)
    requires Token(c.name) && Token(name)
    ensures StartsWith(Pair(c), name + "=") <==> c.name == name
  {
    var s := Pair(c);
    var p := name + "=";
    if c.name == name {
      assert s == p + c.value;
      assert s[..|p|] == p;
    }
    if StartsWith(s, p) {
      var n := |name|;
      assert forall j :: 0 <= j < n ==> s[j] == p[j] == name[j] != '=';
      assert s[n] == p[n] == '=';
      assert forall j :: 0 <= j < |c.name| ==> s[j] == c.name[j] != '=';
      assert s[|c.name|] == '=';
      assert |c.name| == n;
      assert c.name == s[..n] == name;
    }
  }

  /** A well-formed pair has no whitespace, so trimming it, after a space or not, gives it back. */
  lemma PairTrim(c: Cookie)
    requires Token(c.name) && Octets(c.value)
    ensures Trim(Pair(c)) == Pair(c) && Trim([' '] + Pair(c)) == Pair(c)
  {
    NoWhitespaceConcat(c.name, "=");
    NoWhitespaceConcat(c.name + "=", c.value);
    TrimNoWhitespace(Pair(c));
  }

  /** A well-formed pair has no ';', after a space or not. */
  lemma PairHasNoSeparator(c: Cookie)
    requires Token(c.name) && Octets(c.value)
    ensures ';' !in Pair(c) && ';' !in [' '] + Pair(c)
  {
    NotInConcat(c.name, "=", ';');
    NotInConcat(c.name + "=", c.value, ';');
    NotInConcat([' '], Pair(c), ';');
  }

  /** What a segment of a well-formed store trims to. */
  lemma SegmentTrim(jar: seq<Cookie>, i: int)
    requires WellFormed(jar) && 0 <= i < |jar|
    ensures Trim(Segments(jar)[i]) == Pair(jar[i]) && ';' !in Segments(jar)[i]
  {
    PairTrim(jar[i]);
    PairHasNoSeparator(jar[i]);
  }

  /** The header of a non-empty well-formed store splits back into its segments. */
  lemma SplitHeader(jar: seq<Cookie>)
    requires WellFormed(jar) && jar != []
    ensures Split(Header(jar), ';') == Segments(jar)
  {
    var segs := Segments(jar);
    forall i | 0 <= i < |jar| ensures ';' !in segs[i] {
      SegmentTrim(jar, i);
    }
    SplitJoin(segs, ';');
  }

  /** The segment that names the cookie is the cookie's own. */
  lemma FindNamedSegment(jar: seq<Cookie>, name: string)
    requires WellFormed(jar) && Token(name)
    ensures FindNamed(Segments(jar), name) == FindCookie(jar, name)
  {
    var segs := Segments(jar);
    forall i | 0 <= i < |jar|
      ensures StartsWith(Trim(segs[i]), name + "=") <==> jar[i].name == name
    {
      SegmentTrim(jar, i);
      PairMatches(jar[i], name);
    }
  }

  /** An empty store's header names no cookie. */
  lemma ReadEmptyHeader(name: string)
    ensures ReadCookie(Header([]), name) == None
  {
    assert Header([]) == [];
    SplitWithout([], ';');
    assert Trim([]) == [];
    assert FindNamed([[]], name) == -1;
  }

  /** The value read from the segment of the cookie at `k`. */
  lemma ValueOfSegment(jar: seq<Cookie>, k: int)
    requires 0 <= k < |jar| && '=' !in jar[k].name && '=' !in jar[k].value
    ensures '=' in Segments(jar)[k] && ValueOf(Segments(jar)[k]) == jar[k].value
  {
    var c := jar[k];
    if k == 0 {
      assert Segments(jar)[k] == c.name + "=" + c.value;
      ValueOfPair(c.name, c.value);
    } else {
      assert Segments(jar)[k] == (" " + c.name) + "=" + c.value;
      ValueOfPair(" " + c.name, c.value);
    }
  }

  /**
   * Reading a well-formed store's header finds the cookie called `name`,
   * and its value when that has no '='.
   */
  lemma ReadHeader(jar: seq<Cookie>, name: string)
    requires WellFormed(jar) && Token(name)
    ensures var k := FindCookie(jar, name);
      && (k == -1 ==> ReadCookie(Header(jar), name) == None)
      && (k != -1 && '=' !in jar[k].value ==> ReadCookie(Header(jar), name) == Some(jar[k].value))
  {
    var k := FindCookie(jar, name);
    if jar == [] {
      ReadEmptyHeader(name);
    } else {
      SplitHeader(jar);
      FindNamedSegment(jar, name);
      if k != -1 && '=' !in jar[k].value {
        ValueOfSegment(jar, k);
      }
    }
  }

  /** Right after an id is written, reading the cookie header gives it back. */
  lemma ReadBackAfterSet(jar: seq<Cookie>, userId: string)
    requires WellFormed(jar) && Octets(userId) && '=' !in userId
    ensures ReadCookie(Header(Store(jar, CookieName, userId)), CookieName) == Some(userId)
  {
    CookieNameIsToken();
    StoreWellFormed(jar, CookieName, userId);
    ReadHeader(Store(jar, CookieName, userId), CookieName);
  }

  /** After `clearUserId` no user id is read, so the next read makes a fresh one. */
  lemma NothingAfterClear(jar: seq<Cookie>)
    requires WellFormed(jar)
    ensures ReadCookie(Header(Forget(jar, CookieName)), CookieName) == None
  {
    CookieNameIsToken();
    ForgetWellFormed(jar, CookieName);
    ReadHeader(Forget(jar, CookieName), CookieName);
  }

  /** A browser tab's `document.cookie`; `hasWindow` is false during server rendering. */
  class Browser {
    const hasWindow: bool
    var jar: seq<Cookie>

    constructor (hasWindow: bool, jar: seq<Cookie>)
      ensures this.hasWindow == hasWindow && this.jar == jar
    {
      this.hasWindow := hasWindow;
      this.jar := jar;
    }

    /** `document.cookie` as the page reads it. */
    function DocumentCookie(): string
      reads this
    {
      Header(jar)
    }

    /** `setUserId`; `written` is the string assigned to `document.cookie`. */
    method SetUserId(userId: string, expires: string) returns (written: Option<string>)
      modifies this`jar
      ensures !hasWindow ==> written == None && jar == old(jar)
      ensures hasWindow ==> written == Some(CookieString(userId, expires)) && jar == Store(old(jar), CookieName, userId)
    {
      if !hasWindow {
        return None;
      }
      written := Some(CookieString(userId, expires));
      jar := Store(jar, CookieName, userId);
    }

    /** `clearUserId`: the cookie is written with an expiry in 1970. */
    method ClearUserId() returns (written: Option<string>)
      modifies this`jar
      ensures !hasWindow ==> written == None && jar == old(jar)
      ensures hasWindow ==> written == Some(ClearCookie) && jar == Forget(old(jar), CookieName)
    {
      if !hasWindow {
        return None;
      }
      written := Some(ClearCookie);
      jar := Forget(jar, CookieName);
    }

    /**
     * `getUserId`: the id in the cookie, or else `freshId`, which is then
     * written with the expiry `expires`.
     */
    method GetUserId(freshId: string, expires: string) returns (userId: string)
      modifies this`jar
      ensures !hasWindow ==> userId == "" && jar == old(jar)
      ensures hasWindow && ReadCookie(old(DocumentCookie()), CookieName).Some? ==>
        userId == ReadCookie(old(DocumentCookie()), CookieName).value && jar == old(jar)
      ensures hasWindow && ReadCookie(old(DocumentCookie()), CookieName).None? ==>
        userId == freshId && jar == Store(old(jar), CookieName, freshId)
    {
      if !hasWindow {
        return "";
      }
      var found := ReadCookie(Header(jar), CookieName);
      if found.Some? {
        return found.value;
      }
      var _ := SetUserId(freshId, expires);
      userId := freshId;
    }
  }
}
