/** The few string operations the proxy uses on header values, over ASCII. */
module Text {

  predicate IsSpace(c: char) {
    c == ' ' || c == '\t' || c == '\n' || c == '\U{0B}' || c == '\U{0C}' || c == '\r'
  }

  /** strings.TrimLeftFunc. */
  function TrimLeft(s: string, cut: char -> bool): string {
    if s != "" && cut(s[0]) then TrimLeft(s[1..], cut) else s
  }

  /** strings.TrimRightFunc. */
  function TrimRight(s: string, cut: char -> bool): string {
    if s != "" && cut(s[|s| - 1]) then TrimRight(s[..|s| - 1], cut) else s
  }

  function Trim(s: string, cut: char -> bool): string {
    TrimRight(TrimLeft(s, cut), cut)
  }

  function TrimSpace(s: string): string {
    Trim(s, IsSpace)
  }

  /** All of s is cut. */
  predicate Only(s: string, cut: char -> bool) {
    forall i :: 0 <= i < |s| ==> cut(s[i])
  }

  lemma {:induction false} TrimRightIs(s: string, cut: char -> bool)
    ensures TrimRight(s, cut) <= s
    ensures TrimRight(s, cut) != "" ==> !cut(TrimRight(s, cut)[|TrimRight(s, cut)| - 1])
    ensures s != "" && !cut(s[0]) ==> TrimRight(s, cut) != ""
  {
    if s != "" && cut(s[|s| - 1]) {
      TrimRightIs(s[..|s| - 1], cut);
    }
  }

  lemma {:induction false} TrimLeftIs(s: string, cut: char -> bool)
    ensures TrimLeft(s, cut) != "" ==> !cut(TrimLeft(s, cut)[0])
    ensures forall c :: c in TrimLeft(s, cut) ==> c in s
  {
    if s != "" && cut(s[0]) {
      TrimLeftIs(s[1..], cut);
    }
  }

  lemma TrimDrops(s: string, cut: char -> bool)
    ensures forall c :: c in Trim(s, cut) ==> c in s
  {
    TrimLeftIs(s, cut);
    TrimRightIs(TrimLeft(s, cut), cut);
  }

  lemma TrimSpaceTwice(s: string)
    ensures TrimSpace(TrimSpace(s)) == TrimSpace(s)
  {
    TrimLeftIs(s, IsSpace);
    TrimRightIs(TrimLeft(s, IsSpace), IsSpace);
  }

  lemma {:induction false} TrimLeftPast(lead: string, s: string, cut: char -> bool)
    requires Only(lead, cut)
    ensures TrimLeft(lead + s, cut) == TrimLeft(s, cut)
  {
    if lead == "" {
      assert lead + s == s;
    } else {
      assert (lead + s)[1..] == lead[1..] + s;
      TrimLeftPast(lead[1..], s, cut);
    }
  }

  lemma {:induction false} TrimRightPast(s: string, rear: string, cut: char -> bool)
    requires Only(rear, cut)
    ensures TrimRight(s + rear, cut) == TrimRight(s, cut)
  {
    if rear == "" {
      assert s + rear == s;
    } else {
      var n := |rear| - 1;
      assert (s + rear)[..|s + rear| - 1] == s + rear[..n];
      assert (s + rear)[|s + rear| - 1] == rear[n];
      TrimRightPast(s, rear[..n], cut);
    }
  }

  /** A text that neither starts nor ends with what is cut. */
  predicate Bare(s: string, cut: char -> bool) {
    s != "" ==> !cut(s[0]) && !cut(s[|s| - 1])
  }

  lemma TrimAround(lead: string, s: string, rear: string, cut: char -> bool)
    requires Only(lead, cut) && Only(rear, cut) && Bare(s, cut)
    ensures Trim(lead + s + rear, cut) == s
  {
    assert lead + s + rear == lead + (s + rear);
    TrimLeftPast(lead, s + rear, cut);
    if s == "" {
      assert s + rear == rear + "";
      TrimLeftPast(rear, "", cut);
    } else {
      assert TrimLeft(s + rear, cut) == s + rear;
      TrimRightPast(s, rear, cut);
    }
  }

  /** Trimming the right end stops inside or before a tail, and keeps its start. */
  lemma {:induction false} TrimRightInto(s: string, tail: string, cut: char -> bool) returns (kept: string)
    requires s != "" && !cut(s[|s| - 1])
    ensures kept <= tail && TrimRight(s + tail, cut) == s + kept
  {
    var n := |tail| - 1;
    if tail == "" || !cut(tail[n]) {
      kept := tail;
      assert tail != "" ==> (s + tail)[|s + tail| - 1] == tail[n];
      assert tail == "" ==> s + tail == s;
    } else {
      assert (s + tail)[..|s + tail| - 1] == s + tail[..n];
      assert (s + tail)[|s + tail| - 1] == tail[n];
      kept := TrimRightInto(s, tail[..n], cut);
    }
  }

  /** The white space and nothing else. */
  lemma SpaceIs(c: char)
    ensures IsSpace(c) <==> c in {' ', '\t', '\n', '\U{0B}', '\U{0C}', '\r'}
  {
  }

  function LowerChar(c: char): char {
    if 'A' <= c <= 'Z' then c - 'A' + 'a' else c
  }

  /** strings.ToLower. */
  function Lower(s: string): string {
    seq(|s|, i requires 0 <= i < |s| => LowerChar(s[i]))
  }

  /** Capital d is small c, 32 further on. */
  predicate Capital(d: char, c: char) {
    'A' <= d <= 'Z' && c as int == d as int + 32
  }

  /** Equal but for the case of ASCII letters. */
  predicate EqualFold(a: string, b: string) {
    |a| == |b| && forall i :: 0 <= i < |a| ==> a[i] == b[i] || Capital(a[i], b[i]) || Capital(b[i], a[i])
  }

  lemma LowerIsFold(a: string, b: string)
    ensures Lower(a) == Lower(b) <==> EqualFold(a, b)
  {
    if EqualFold(a, b) {
      assert forall i :: 0 <= i < |a| ==> LowerChar(a[i]) == LowerChar(b[i]);
    } else if |a| == |b| {
      var i :| 0 <= i < |a| && !(a[i] == b[i] || Capital(a[i], b[i]) || Capital(b[i], a[i]));
      assert LowerChar(a[i]) != LowerChar(b[i]);
      assert Lower(a)[i] != Lower(b)[i];
    }
  }

  /** A text without capitals. */
  predicate Small(s: string) {
    forall i :: 0 <= i < |s| ==> !('A' <= s[i] <= 'Z')
  }

  lemma LowerIsSmall(a: string, b: string)
    requires Small(b)
    ensures Lower(a) == b <==> EqualFold(a, b)
  {
    assert Lower(b) == b;
    LowerIsFold(a, b);
  }

  function Digit(n: nat): char
    requires n < 10
  {
    "0123456789"[n]
  }

  /** strconv.Itoa of a non-negative number. */
  function Itoa(n: nat): string {
    if n < 10 then [Digit(n)] else Itoa(n / 10) + [Digit(n % 10)]
  }

  predicate Decimal(s: string) {
    forall i :: 0 <= i < |s| ==> '0' <= s[i] <= '9'
  }

  /** The number that decimal digits stand for. */
  function Number(s: string): int {
    if s == "" then 0 else 10 * Number(s[..|s| - 1]) + (s[|s| - 1] as int - '0' as int)
  }

  lemma DigitIs(n: nat)
    requires n < 10
    ensures Digit(n) as int == '0' as int + n && (n == 0 <==> Digit(n) == '0')
  {
  }

  /** One digit more. */
  lemma NumberPush(s: string, n: nat)
    requires n < 10 && Decimal(s)
    ensures Decimal(s + [Digit(n)]) && Number(s + [Digit(n)]) == 10 * Number(s) + n
  {
    DigitIs(n);
    assert (s + [Digit(n)])[..|s|] == s;
  }

  /** Itoa writes digits that read back as the number, without a leading zero. */
  lemma {:induction false} ItoaReadsBack(n: nat)
    ensures Decimal(Itoa(n)) && Number(Itoa(n)) == n
    ensures Itoa(n) != "" && (Itoa(n)[0] == '0' <==> n == 0)
  {
    if n < 10 {
      DigitIs(n);
      NumberPush("", n);
      assert Itoa(n) == "" + [Digit(n)];
    } else {
      ItoaReadsBack(n / 10);
      NumberPush(Itoa(n / 10), n % 10);
    }
  }
}
