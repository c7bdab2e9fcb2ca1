/** What JavaScript's `trim` takes to be white space. */
module JsText {

  predicate IsTrimmed(c: char) {
    || c == ' ' || c == '\t' || c == '\n' || c == '\r'
    || c == '\U{B}' || c == '\U{C}' || c == '\U{A0}' || c == '\U{1680}' || '\U{2000}' <= c <= '\U{200A}'
    || c == '\U{2028}' || c == '\U{2029}' || c == '\U{202F}' || c == '\U{205F}' || c == '\U{3000}' || c == '\U{FEFF}'
  }

  predicate IsBlank(s: string) {
    forall i | 0 <= i < |s| :: IsTrimmed(s[i])
  }

  function TrimStart(s: string): (t: string)
    ensures t == "" || !IsTrimmed(t[0])
  {
    if s != "" && IsTrimmed(s[0]) then TrimStart(s[1..]) else s
  }

  function TrimEnd(s: string): (t: string)
    ensures t <= s
  {
    if s != "" && IsTrimmed(s[|s| - 1]) then TrimEnd(s[..|s| - 1]) else s
  }

  function Trim(s: string): string {
    TrimEnd(TrimStart(s))
  }

  /** The white space and the line ends of JavaScript, one by one. */
  const WHITE: set<char> :=
    {' ', '\t', '\n', '\r', '\U{B}', '\U{C}', '\U{A0}', '\U{1680}',
     '\U{2000}', '\U{2001}', '\U{2002}', '\U{2003}', '\U{2004}', '\U{2005}', '\U{2006}', '\U{2007}', '\U{2008}', '\U{2009}', '\U{200A}',
     '\U{2028}', '\U{2029}', '\U{202F}', '\U{205F}', '\U{3000}', '\U{FEFF}'}

  predicate AllWhite(s: string) {
    forall i | 0 <= i < |s| :: s[i] in WHITE
  }

  lemma {:induction false} WhiteIsTrimmed(c: char)
    ensures IsTrimmed(c) <==> c in WHITE
  {
    if '\U{2000}' <= c <= '\U{200A}' {
      var n := c as int - 0x2000;
      assert n in {0, 1, 2, 3, 4, 5, 6, 7, 8, 9, 10};
    }
  }

  lemma {:induction false} BlankIsWhite(s: string)
    ensures IsBlank(s) <==> AllWhite(s)
  {
    forall i | 0 <= i < |s| ensures IsTrimmed(s[i]) <==> s[i] in WHITE {
      WhiteIsTrimmed(s[i]);
    }
    hide IsTrimmed, WHITE;
  }

  lemma {:induction false} StartIsTrimmed(s: string)
    ensures |TrimStart(s)| <= |s| && TrimStart(s) == s[|s| - |TrimStart(s)|..]
    ensures forall i | 0 <= i < |s| - |TrimStart(s)| :: IsTrimmed(s[i])
  {
    if s != "" && IsTrimmed(s[0]) {
      StartIsTrimmed(s[1..]);
      hide IsTrimmed;
    }
  }

  lemma {:induction false} EndIsTrimmed(s: string)
    ensures TrimEnd(s) == s[..|TrimEnd(s)|] && (TrimEnd(s) != "" ==> !IsTrimmed(s[|TrimEnd(s)| - 1]))
    ensures forall i | |TrimEnd(s)| <= i < |s| :: IsTrimmed(s[i])
  {
    if s != "" && IsTrimmed(s[|s| - 1]) {
      EndIsTrimmed(s[..|s| - 1]);
      hide IsTrimmed;
    }
  }

  /** The text from `i` to `j` begins and ends with something else, and all around it is white space. */
  predicate IsCore(s: string, i: int, j: int) {
    && 0 <= i <= j <= |s|
    && (forall k | 0 <= k < |s| && (k < i || j <= k) :: s[k] in WHITE)
    && (i < j ==> s[i] !in WHITE && s[j - 1] !in WHITE)
  }

  lemma {:induction false} SliceOfSlice(s: string, i: nat, m: nat)
    requires i + m <= |s|
    ensures s[i..][..m] == s[i..i + m]
  {
  }

  lemma {:induction false} CoreOf(s: string, start: string, t: string, i: nat)
    requires i <= |s| && start == s[i..] && |t| <= |start| && t == start[..|t|]
    requires forall k | 0 <= k < i :: IsTrimmed(s[k])
    requires forall k | |t| <= k < |start| :: IsTrimmed(start[k])
    requires t != "" ==> !IsTrimmed(start[0]) && !IsTrimmed(start[|t| - 1])
    ensures IsCore(s, i, i + |t|) && t == s[i..i + |t|]
  {
    hide IsTrimmed, WHITE;
    SliceOfSlice(s, i, |t|);
    forall k | 0 <= k < |s| ensures IsTrimmed(s[k]) <==> s[k] in WHITE {
      WhiteIsTrimmed(s[k]);
    }
    forall k | i + |t| <= k < |s| ensures s[k] in WHITE {
      assert s[k] == start[k - i];
    }
  }

  /** Trimming takes white space off both ends, and all of it. */
  lemma {:induction false} TrimIs(s: string)
    ensures exists i, j :: IsCore(s, i, j) && Trim(s) == s[i..j]
  {
    var start := TrimStart(s);
    StartIsTrimmed(s);
    EndIsTrimmed(start);
    assert start != "" ==> !IsTrimmed(start[0]);
    hide IsTrimmed, TrimEnd, TrimStart, IsCore;
    CoreOf(s, start, Trim(s), |s| - |start|);
  }
}
