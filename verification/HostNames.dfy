/** Text as bytes, and the host names l4/metadata.go accepts (checkName). */
module HostNames {
  import opened Bytes

  const DOT: Byte := 46
  const ZERO: Byte := 48

  /** The first place of c in s, or |s|. */
  function FirstIndex(s: seq<Byte>, c: Byte): (i: nat)
    ensures i <= |s| && (i < |s| ==> s[i] == c) && forall j :: 0 <= j < i ==> s[j] != c
  {
    if s == [] || s[0] == c then 0 else 1 + FirstIndex(s[1..], c)
  }

  lemma FirstIndexIs(s: seq<Byte>, c: Byte, i: nat)
    requires i <= |s| && (i < |s| ==> s[i] == c) && forall j :: 0 <= j < i ==> s[j] != c
    ensures FirstIndex(s, c) == i
  {
  }

  predicate Digit(c: Byte) { 48 <= c <= 57 }

  predicate HexDigit(c: Byte) { Digit(c) || 97 <= c <= 102 || 65 <= c <= 70 }

  predicate NameByte(c: Byte) { 97 <= c <= 122 || 65 <= c <= 90 || Digit(c) || c == 45 || c == 95 }

  predicate AllDigits(s: seq<Byte>) { forall i :: 0 <= i < |s| ==> Digit(s[i]) }

  /** All decimal digits, or 0x and only hex digits: what resolvers of the inet_aton kind read as a number. */
  predicate Numeric(l: seq<Byte>) {
    AllDigits(l) || (|l| >= 2 && l[0] == ZERO && l[1] in {120, 88} && forall i :: 2 <= i < |l| ==> HexDigit(l[i]))
  }

  method NumericLabel(l: seq<Byte>) returns (r: bool)
    ensures r == Numeric(l)
  {
    var digits, hex := l, false;
    if |l| >= 2 && l[0] == ZERO && (l[1] == 120 || l[1] == 88) {
      digits, hex := l[2..], true;
      assert !Digit(l[1]);
    }
    for i := 0 to |digits|
      invariant forall j :: 0 <= j < i ==> Digit(digits[j]) || (hex && HexDigit(digits[j]))
    {
      var c := digits[i];
      if !(Digit(c) || (hex && HexDigit(c))) {
        assert hex ==> l[i + 2] == c;
        return false;
      }
    }
    assert hex ==> forall j :: 2 <= j < |l| ==> l[j] == digits[j - 2];
    return true;
  }

  // ---- the grammar ----

  /** s cut at its dots. */
  function Labels(s: seq<Byte>): (r: seq<seq<Byte>>)
    ensures |r| > 0
    decreases |s|
  {
    var i := FirstIndex(s, DOT);
    if i == |s| then [s] else [s[..i]] + Labels(s[i + 1..])
  }

  function Last<T>(s: seq<T>): T
    requires |s| > 0
  {
    s[|s| - 1]
  }

  predicate GoodLabel(l: seq<Byte>) {
    1 <= |l| <= 63 && forall i :: 0 <= i < |l| ==> NameByte(l[i])
  }

  /** The name without one optional trailing dot. */
  function Bare(name: seq<Byte>): seq<Byte> {
    if |name| > 0 && name[|name| - 1] == DOT then name[..|name| - 1] else name
  }

  predicate CanonicalName(name: seq<Byte>) {
    var labels := Labels(Bare(name));
    && 0 < |Bare(name)| <= 253
    && (forall i :: 0 <= i < |labels| ==> GoodLabel(labels[i]))
    && !Numeric(Last(labels))
  }

  /** The label rules, label by label from the left. */
  predicate Rest(s: seq<Byte>)
    decreases |s|
  {
    var i := FirstIndex(s, DOT);
    if i == |s| then GoodLabel(s) && !Numeric(s) else GoodLabel(s[..i]) && Rest(s[i + 1..])
  }

  lemma {:induction false} RestIsGrammar(s: seq<Byte>)
    ensures Rest(s) <==> (forall i :: 0 <= i < |Labels(s)| ==> GoodLabel(Labels(s)[i])) && !Numeric(Last(Labels(s)))
    decreases |s|
  {
    hide GoodLabel, Numeric;
    var i := FirstIndex(s, DOT);
    if i < |s| {
      RestIsGrammar(s[i + 1..]);
      var tail := Labels(s[i + 1..]);
      assert Labels(s) == [s[..i]] + tail;
      assert Last(Labels(s)) == Last(tail);
      assert forall j :: 0 <= j < |tail| ==> Labels(s)[j + 1] == tail[j];
      assert Labels(s)[0] == s[..i];
    }
  }

  datatype Why = NameOk | EmptyName | LongName | NameByteOutside | EmptyLabel | LongLabel | NumericLast

  /** checkName accepts exactly the canonical names. */
  method CheckName(name: seq<Byte>) returns (why: Why)
    ensures why == NameOk <==> CanonicalName(name)
    ensures why == EmptyName <==> |Bare(name)| == 0
    ensures why == LongName <==> |Bare(name)| > 253
  {
    var n := |name|;
    if n > 0 && name[n - 1] == DOT { n := n - 1; }
    ghost var s := Bare(name);
    assert s == name[..n];
    if n == 0 { return EmptyName; }
    if n > 253 { return LongName; }
    RestIsGrammar(s);
    why := CheckLabels(name, n);
  }

  /** checkName's loop, over the first n bytes. */
  method CheckLabels(name: seq<Byte>, n: nat) returns (why: Why)
    requires 0 < n <= |name|
    ensures why == NameOk <==> Rest(name[..n])
    ensures why != EmptyName && why != LongName
  {
    hide NameByte, Numeric, FirstIndex, Rest, GoodLabel;
    var start, i := 0, 0;
    assert name[0..n] == name[..n];
    while i <= n
      invariant start <= i <= n
      invariant forall j :: start <= j < i ==> name[j] != DOT && NameByte(name[j])
      invariant Rest(name[..n]) == Rest(name[start..n])
      decreases n + 1 - i
    {
      ghost var s := name[start..n];
      if i < n && name[i] != DOT {
        if !NameByte(name[i]) {
          BadByte(s, i - start);
          return NameByteOutside;
        }
      } else {
        var l := i - start;
        LabelCut(name, start, i, n);
        if l == 0 { return EmptyLabel; }
        if l > 63 { return LongLabel; }
        if i == n {
          var numeric := NumericLabel(name[start..n]);
          if numeric { return NumericLast; }
          return NameOk;
        }
        start := i + 1;
      }
      i := i + 1;
    }
    assert false;
  }

  /** The rules at the end i of the label that starts at start. */
  lemma LabelCut(name: seq<Byte>, start: nat, i: nat, n: nat)
    requires start <= i <= n <= |name| && (i < n ==> name[i] == DOT)
    requires forall j :: start <= j < i ==> name[j] != DOT && NameByte(name[j])
    ensures var ok := 1 <= i - start <= 63;
            Rest(name[start..n]) == (ok && if i == n then !Numeric(name[start..n]) else Rest(name[i + 1..n]))
  {
    hide NameByte, Numeric, FirstIndex;
    var s, l := name[start..n], i - start;
    FirstIndexIs(s, DOT, l);
    assert s[..l] == name[start..i];
    if i < n { assert s[l + 1..] == name[i + 1..n]; } else { assert s[..l] == s; }
  }

  /** A byte outside the alphabet, before any dot, spoils the name. */
  lemma BadByte(s: seq<Byte>, k: nat)
    requires k < |s| && !NameByte(s[k]) && s[k] != DOT && forall j :: 0 <= j < k ==> s[j] != DOT
    ensures !Rest(s)
  {
    hide NameByte, Numeric;
    var i := FirstIndex(s, DOT);
    assert k < i;
    assert s[..i][k] == s[k];
  }

  // ---- what a canonical name is not ----

  lemma {:induction false} RestBytes(s: seq<Byte>, k: nat)
    requires Rest(s) && k < |s|
    ensures NameByte(s[k]) || s[k] == DOT
    decreases |s|
  {
    hide NameByte, Numeric;
    var i := FirstIndex(s, DOT);
    if i < |s| && k > i {
      RestBytes(s[i + 1..], k - i - 1);
    } else if k < i {
      assert s[..i][k] == s[k];
    }
  }

  /** A canonical name is made of name bytes and dots. */
  lemma NameBytes(name: seq<Byte>, k: nat)
    requires CanonicalName(name) && k < |name|
    ensures NameByte(name[k]) || name[k] == DOT
  {
    hide Numeric, Labels, Rest;
    var s := Bare(name);
    RestIsGrammar(s);
    if k < |s| { RestBytes(s, k); }
  }
}
