// String primitives the proxy takes from the C++ library: find, substr, trim, lower-casing and
// decimal numbers.  A byte is a Dafny `char`; every statement holds for all characters, so in
// particular for the 256 byte values.
module Text {

  const CRLF := "\r\n"
  const BLANK_LINE := "\r\n\r\n"

  // `p` occurs in `s` at index `i`.
  predicate At(s: string, p: string, i: int) {
    0 <= i && i + |p| <= |s| && s[i..i + |p|] == p
  }

  // std::string::find with a start position; -1 stands for npos.
  function FindFrom(s: string, p: string, from: nat): (r: int)
    ensures -1 <= r
    ensures r >= 0 ==> from <= r && At(s, p, r)
    decreases |s| - from
  {
    if from + |p| > |s| then -1
    else if At(s, p, from) then from
    else if from == |s| then -1
    else FindFrom(s, p, from + 1)
  }

  function Find(s: string, p: string): (r: int)
    ensures -1 <= r
    ensures r >= 0 ==> At(s, p, r)
  {
    FindFrom(s, p, 0)
  }

  // find returns the first occurrence, and npos only when there is none.
  lemma {:induction false} FindFirst(s: string, p: string, from: nat)
    ensures var r := FindFrom(s, p, from);
            forall i :: from <= i && (r < 0 || i < r) ==> !At(s, p, i)
    decreases |s| - from
  {
    if from + |p| <= |s| && !At(s, p, from) && from < |s| {
      FindFirst(s, p, from + 1);
    }
  }

  // std::string::rfind of one character.
  function RFindChar(s: string, c: char): (r: int)
    ensures -1 <= r < |s|
    ensures r >= 0 ==> s[r] == c
    ensures forall i :: r < i < |s| ==> s[i] != c
  {
    if s == [] then -1
    else if s[|s| - 1] == c then |s| - 1
    else RFindChar(s[..|s| - 1], c)
  }

  predicate IsBlank(c: char) { c == ' ' || c == '\t' }

  // trim(): drops spaces and tabs at both ends.
  function Trim(s: string): (r: string)
    ensures r != [] ==> !IsBlank(r[0]) && !IsBlank(r[|r| - 1])
    ensures |r| <= |s|
  {
    if s == [] then []
    else if IsBlank(s[0]) then Trim(s[1..])
    else if IsBlank(s[|s| - 1]) then Trim(s[..|s| - 1])
    else s
  }

  function LowerChar(c: char): (r: char) {
    if 'A' <= c <= 'Z' then c + (32 as char) else c
  }

  // lower(): std::tolower of every character, in the C locale.
  function Lower(s: string): (r: string)
    ensures |r| == |s|
    ensures forall i :: 0 <= i < |s| ==> r[i] == LowerChar(s[i])
  {
    seq(|s|, i requires 0 <= i < |s| => LowerChar(s[i]))
  }

  predicate IsDigit(c: char) { '0' <= c <= '9' }

  predicate AllDigits(s: string) {
    forall i :: 0 <= i < |s| ==> IsDigit(s[i])
  }

  // The value of a digit string, unbounded.
  function ToNat(s: string): (n: nat)
    requires AllDigits(s)
  {
    if s == [] then 0 else 10 * ToNat(s[..|s| - 1]) + (s[|s| - 1] as nat - '0' as nat)
  }

  // std::to_string of an unsigned number.
  function Decimal(n: nat): (s: string)
    ensures s != []
    ensures AllDigits(s)
    ensures ToNat(s) == n
  {
    var last := ('0' as int + n % 10) as char;
    if n < 10 then [last] else Decimal(n / 10) + [last]
  }

  ghost predicate NoCrlf(s: string) {
    forall i :: 0 <= i ==> !At(s, CRLF, i)
  }

  ghost predicate NoChar(s: string, c: char) {
    forall i :: 0 <= i < |s| ==> s[i] != c
  }

  lemma Assoc<T>(x: seq<T>, y: seq<T>, z: seq<T>)
    ensures x + (y + z) == x + y + z
  {
  }

  lemma Uncons<T>(a: seq<T>, b: seq<T>)
    requires a != []
    ensures [a[0]] + (a[1..] + b) == a + b && [a[0]] + a[1..] == a
  {
  }

  // A CRLF at i, character by character.
  lemma AtCrlf(s: string, i: nat)
    ensures At(s, CRLF, i) <==> i + 1 < |s| && s[i] == '\r' && s[i + 1] == '\n'
  {
    if i + 1 < |s| {
      assert s[i..i + 2] == [s[i], s[i + 1]];
    }
  }

  lemma NoCrlfSlice(s: string, lo: nat, hi: nat)
    requires lo <= hi <= |s| && NoCrlf(s)
    ensures NoCrlf(s[lo..hi])
  {
    forall i: nat ensures !At(s[lo..hi], CRLF, i) {
      AtCrlf(s[lo..hi], i);
      AtCrlf(s, lo + i);
    }
  }

  // Gluing two CRLF-free pieces stays CRLF-free unless a CR meets an LF at the seam.
  lemma NoCrlfConcat(a: string, b: string)
    requires NoCrlf(a) && NoCrlf(b)
    requires a == [] || b == [] || a[|a| - 1] != '\r' || b[0] != '\n'
    ensures NoCrlf(a + b)
  {
    forall i: nat ensures !At(a + b, CRLF, i) {
      AtCrlf(a + b, i);
      AtCrlf(a, i);
      if i >= |a| { AtCrlf(b, i - |a|); }
    }
  }

  lemma NoCrlfOfNoReturn(s: string)
    requires NoChar(s, '\r')
    ensures NoCrlf(s)
  {
    forall i: nat ensures !At(s, CRLF, i) { AtCrlf(s, i); }
  }

  // Everything of s outside [lo, hi) is blank.
  ghost predicate BlankOutside(s: string, lo: nat, hi: nat) {
    forall i :: 0 <= i < |s| && (i < lo || hi <= i) ==> IsBlank(s[i])
  }

  lemma BlankBefore(s: string, lo: nat, hi: nat)
    requires s != [] && IsBlank(s[0]) && lo <= hi <= |s| - 1 && BlankOutside(s[1..], lo, hi)
    ensures BlankOutside(s, lo + 1, hi + 1) && s[1..][lo..hi] == s[lo + 1..hi + 1]
  {
    hide IsBlank;
    assert s[1..][lo..hi] == s[lo + 1..hi + 1];
    forall i | 0 <= i < |s| && (i < lo + 1 || hi + 1 <= i) ensures IsBlank(s[i]) {
      if i > 0 { assert s[1..][i - 1] == s[i]; }
    }
  }

  lemma BlankAfter(s: string, lo: nat, hi: nat)
    requires s != [] && IsBlank(s[|s| - 1]) && lo <= hi <= |s| - 1 && BlankOutside(s[..|s| - 1], lo, hi)
    ensures BlankOutside(s, lo, hi) && s[..|s| - 1][lo..hi] == s[lo..hi]
  {
    hide IsBlank;
    forall i | 0 <= i < |s| && (i < lo || hi <= i) ensures IsBlank(s[i]) {
      if i < |s| - 1 { assert s[..|s| - 1][i] == s[i]; }
    }
  }

  // trim() cuts a contiguous middle piece.
  lemma {:induction false} TrimIsSlice(s: string) returns (lo: nat, hi: nat)
    ensures lo <= hi <= |s| && Trim(s) == s[lo..hi]
    ensures BlankOutside(s, lo, hi)
  {
    if s == [] {
      lo, hi := 0, 0;
    } else if IsBlank(s[0]) {
      lo, hi := TrimIsSlice(s[1..]);
      BlankBefore(s, lo, hi);
      hide BlankOutside;
      lo, hi := lo + 1, hi + 1;
    } else if IsBlank(s[|s| - 1]) {
      lo, hi := TrimIsSlice(s[..|s| - 1]);
      BlankAfter(s, lo, hi);
      hide BlankOutside;
    } else {
      lo, hi := 0, |s|;
      assert s[0..|s|] == s;
    }
  }

  lemma TrimSubset(s: string, c: char)
    ensures NoCrlf(s) ==> NoCrlf(Trim(s))
    ensures NoChar(s, c) ==> NoChar(Trim(s), c)
  {
    var lo, hi := TrimIsSlice(s);
    if NoCrlf(s) { NoCrlfSlice(s, lo, hi); }
  }

  // Searching a prefix that still holds the match finds the same match.
  lemma {:induction false} FindInPrefix(s: string, p: string, from: nat, n: nat)
    requires n <= |s| && 0 < |p|
    ensures FindFrom(s, p, from) >= 0 && FindFrom(s, p, from) + |p| <= n
            ==> FindFrom(s[..n], p, from) == FindFrom(s, p, from)
    ensures FindFrom(s[..n], p, from) >= 0 ==> FindFrom(s, p, from) == FindFrom(s[..n], p, from)
  {
    FindFirst(s, p, from);
    FindFirst(s[..n], p, from);
    forall i: nat | i + |p| <= n ensures At(s[..n], p, i) <==> At(s, p, i) {
      assert s[..n][i..i + |p|] == s[i..i + |p|];
    }
  }

  // A result with both halves of find's promise is find's result.
  lemma FindUnique(s: string, p: string, from: nat, r: nat)
    requires from <= r && At(s, p, r)
    requires forall i :: from <= i < r ==> !At(s, p, i)
    ensures FindFrom(s, p, from) == r
  {
    FindFirst(s, p, from);
  }

  // A stretch without a match can be skipped.
  lemma FindSkips(s: string, p: string, from: nat, mid: nat)
    requires from <= mid && FindFrom(s, p, mid) >= 0
    requires forall i :: from <= i < mid ==> !At(s, p, i)
    ensures FindFrom(s, p, from) == FindFrom(s, p, mid)
  {
    FindFirst(s, p, mid);
    FindUnique(s, p, from, FindFrom(s, p, mid));
  }
}
