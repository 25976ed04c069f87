/** WAL file names: how `<unix_ms>-<pid>-<counter>.mpk` is printed, parsed, classified and ordered. */
module WalNames {
  import opened Base

  const PENDING_SUFFIX := ".mpk"
  const U128_LIMIT := 0x1_0000_0000_0000_0000_0000_0000_0000_0000

  // Printing

  function DigitChar(d: nat): char
    requires d < 16
  {
    if d < 10 then '0' + (d as char) else 'a' + ((d - 10) as char)
  }

  datatype Radix = Dec | Hex

  /** Everything but the last digit of n, and that digit. */
  function Split(n: nat, r: Radix): (nat, nat) {
    match r
    case Dec => (n / 10, n % 10)
    case Hex => (n / 16, n % 16)
  }

  /** n in positional notation, most significant digit first. */
  function Digits(n: nat, r: Radix): (s: string)
    ensures s != ""
    decreases n
  {
    var (high, last) := Split(n, r);
    if high == 0 then [DigitChar(last)] else Digits(high, r) + [DigitChar(last)]
  }

  function FileName(ts: nat, pid: nat, counter: nat): string {
    Digits(ts, Dec) + "-" + (Digits(pid, Hex) + "-" + (Digits(counter, Hex) + PENDING_SUFFIX))
  }

  function TmpName(name: string): string {
    "." + name + ".tmp"
  }

  /** `with_extension("corrupt")` of a pending name. */
  function CorruptName(name: string): string
    requires IsPending(name)
  {
    name[..|name| - 4] + ".corrupt"
  }

  // Classification

  predicate EndsWith(s: string, suffix: string) {
    |suffix| <= |s| && s[|s| - |suffix|..] == suffix
  }

  predicate IsPending(name: string) {
    && !(|name| > 0 && name[0] == '.')
    && EndsWith(name, PENDING_SUFFIX)
  }

  // Parsing

  /** Position of the first c in s. */
  function Find(s: string, c: char): (r: Option<nat>)
    ensures r == None ==> c !in s
    ensures r.Some? ==> r.value < |s| && s[r.value] == c && c !in s[..r.value]
  {
    if s == "" then None
    else if s[0] == c then Some(0)
    else match Find(s[1..], c)
      case None => None
      case Some(i) => assert s[..i + 1] == [s[0]] + s[1..][..i]; Some(i + 1)
  }

  predicate IsDigit(c: char) { '0' <= c <= '9' }

  /** Decimal value of a string of digits; None at the first character that is not one. */
  function DecimalValue(s: string): Option<nat>
    decreases |s|
  {
    if s == "" then Some(0)
    else if !IsDigit(s[|s| - 1]) then None
    else match DecimalValue(s[..|s| - 1])
      case None => None
      case Some(v) => Some(10 * v + (s[|s| - 1] - '0') as nat)
  }

  /** Decimal and lower-case hexadecimal. */
  lemma DigitsSpelledOut()
    ensures Digits(17, Dec) == "17" && Digits(255, Hex) == "ff" && Digits(18, Hex) == "12"
  {
    assert Digits(1, Dec) == "1" && Digits(15, Hex) == "f" && Digits(1, Hex) == "1";
  }

  /** The name of one append, spelled out: the milliseconds in decimal, the rest in hexadecimal. */
  lemma NameSpelledOut(ts: nat, pid: nat, counter: nat)
    requires ts == 17 && pid == 255 && counter == 18
    ensures FileName(ts, pid, counter) == "17-ff-12.mpk"
  {
    DigitsSpelledOut();
    assert FileName(ts, pid, counter) == "17" + "-" + ("ff" + "-" + ("12" + PENDING_SUFFIX));
  }

  /** The hidden name it is written under, and the name it is set aside under. */
  lemma OtherNamesSpelledOut(name: string)
    requires name == "17-ff-12.mpk"
    ensures TmpName(name) == ".17-ff-12.mpk.tmp"
    ensures IsPending(name) && CorruptName(name) == "17-ff-12.corrupt"
  {
    assert name[|name| - 4..] == ".mpk";
  }

  /** Nothing but digits is a number, and digits always are. */
  lemma {:induction false} DecimalIffDigits(s: string)
    ensures DecimalValue(s).Some? <==> forall i :: 0 <= i < |s| ==> '0' <= s[i] <= '9'
    decreases |s|
  {
    if s != "" {
      DecimalIffDigits(s[..|s| - 1]);
    }
  }

  /** Unsigned 128-bit parsing: one leading plus sign is allowed, empty input and overflow are not. */
  function ParseU128(s: string): Option<nat> {
    var digits := if |s| > 1 && s[0] == '+' then s[1..] else s;
    if digits == "" then None
    else match DecimalValue(digits)
      case Some(v) => if v < U128_LIMIT then Some(v) else None
      case None => None
  }

  function ParseTs(name: string): Option<nat> {
    match Find(name, '-')
    case None => None
    case Some(i) => ParseU128(name[..i])
  }

  // Order of names: lexicographic on characters

  predicate Less(a: string, b: string)
    decreases |b|
  {
    b != "" && (a == "" || a[0] < b[0] || (a[0] == b[0] && Less(a[1..], b[1..])))
  }

  ghost predicate Sorted(s: seq<string>) {
    forall i, j :: 0 <= i < j < |s| ==> Less(s[i], s[j])
  }

  /** `list` names exactly the members of `names`, oldest first. */
  ghost predicate Lists(list: seq<string>, names: set<string>) {
    && Sorted(list)
    && (forall n :: n in list <==> n in names)
  }

  lemma {:induction false} LessIrreflexive(a: string)
    ensures !Less(a, a)
    decreases |a|
  {
    if a != "" {
      LessIrreflexive(a[1..]);
    }
  }

  lemma {:induction false} LessTransitive(a: string, b: string, c: string)
    requires Less(a, b) && Less(b, c)
    ensures Less(a, c)
    decreases |c|
  {
    if a != "" && b != "" && a[0] == b[0] && b[0] == c[0] {
      LessTransitive(a[1..], b[1..], c[1..]);
    }
  }

  lemma LessAsymmetric(a: string, b: string)
    requires Less(b, a)
    ensures !Less(a, b)
  {
    if Less(a, b) {
      LessTransitive(a, b, a);
    }
    LessIrreflexive(a);
  }

  lemma {:induction false} LessTotal(a: string, b: string)
    ensures Less(a, b) || a == b || Less(b, a)
    decreases |b|
  {
    if a != "" && b != "" && a[0] == b[0] {
      LessTotal(a[1..], b[1..]);
      assert a == [a[0]] + a[1..] && b == [b[0]] + b[1..];
    }
  }

  /** A sorted listing of a set of names is unique, so an order is all a listing can be told by. */
  lemma {:induction false} ListingUnique(s: seq<string>, t: seq<string>, names: set<string>)
    requires Lists(s, names) && Lists(t, names)
    ensures s == t
    decreases |s|
  {
    ListingEmpty(s, names);
    ListingEmpty(t, names);
    if s != [] {
      assert s[0] in names && s[0] in t;
      assert t[0] in s;
      if s[0] != t[0] {
        var i :| 0 <= i < |s| && s[i] == t[0];
        var j :| 0 <= j < |t| && t[j] == s[0];
        assert Less(s[0], s[i]) && Less(t[0], t[j]);
        LessTransitive(s[0], t[0], s[0]);
        LessIrreflexive(s[0]);
        assert false;
      }
      ListingTail(s, names);
      ListingTail(t, names);
      ListingUnique(s[1..], t[1..], names - {s[0]});
      assert s == [s[0]] + s[1..] && t == [t[0]] + t[1..];
    }
  }

  lemma ListingEmpty(s: seq<string>, names: set<string>)
    requires Lists(s, names)
    ensures s == [] <==> names == {}
  {
    if s != [] {
      assert s[0] in names;
    }
  }

  lemma ListingTail(s: seq<string>, names: set<string>)
    requires Lists(s, names) && s != []
    ensures Lists(s[1..], names - {s[0]})
  {
    LessIrreflexive(s[0]);
    assert forall i :: 1 <= i < |s| ==> s[i] != s[0];
    forall n ensures n in s[1..] <==> n in names - {s[0]} {
      if n in s && n != s[0] {
        var i :| 0 <= i < |s| && s[i] == n;
        assert s[1..][i - 1] == n;
      }
    }
  }

  // Sorting

  function Insert(s: seq<string>, x: string): (r: seq<string>)
    ensures multiset(r) == multiset(s) + multiset{x}
    decreases |s|
  {
    if s == [] || !Less(s[0], x) then
      [x] + s
    else
      assert s == [s[0]] + s[1..];
      [s[0]] + Insert(s[1..], x)
  }

  function Sort(s: seq<string>): (r: seq<string>)
    ensures multiset(r) == multiset(s)
    decreases |s|
  {
    if s == [] then []
    else
      assert s == s[..|s| - 1] + [s[|s| - 1]];
      Insert(Sort(s[..|s| - 1]), s[|s| - 1])
  }

  ghost predicate Distinct(s: seq<string>) {
    forall i, j :: 0 <= i < j < |s| ==> s[i] != s[j]
  }

  lemma SortedCons(h: string, t: seq<string>)
    requires Sorted(t) && forall n :: n in t ==> Less(h, n)
    ensures Sorted([h] + t)
  {
    var r := [h] + t;
    forall i, j | 0 <= i < j < |r| ensures Less(r[i], r[j]) {
      assert r[j] == t[j - 1] && t[j - 1] in t;
    }
  }

  lemma SameMembers(r: seq<string>, s: seq<string>)
    requires multiset(r) == multiset(s)
    ensures forall n :: n in r <==> n in s
  {
    forall n ensures n in r <==> n in s {
      assert n in r <==> n in multiset(r);
    }
  }

  lemma {:induction false} InsertSorted(s: seq<string>, x: string)
    requires Sorted(s) && x !in s
    ensures Sorted(Insert(s, x))
    decreases |s|
  {
    if s == [] {
    } else if Less(s[0], x) {
      InsertSorted(s[1..], x);
      SameMembers(Insert(s[1..], x), s[1..] + [x]);
      SortedCons(s[0], Insert(s[1..], x));
    } else {
      LessTotal(s[0], x);
      forall n | n in s ensures Less(x, n) {
        var i :| 0 <= i < |s| && s[i] == n;
        if i > 0 {
          LessTransitive(x, s[0], n);
        }
      }
      SortedCons(x, s);
    }
  }

  lemma {:induction false} SortSorts(s: seq<string>)
    requires Distinct(s)
    ensures Sorted(Sort(s))
    decreases |s|
  {
    if s != [] {
      var init, last := s[..|s| - 1], s[|s| - 1];
      SortSorts(init);
      assert forall i :: 0 <= i < |init| ==> init[i] == s[i] && s[i] != last;
      SameMembers(Sort(init), init);
      InsertSorted(Sort(init), last);
    }
  }

  /** Sorting the entries a directory scan met gives the listing of their set. */
  lemma SortLists(s: seq<string>)
    requires Distinct(s)
    ensures Lists(Sort(s), set n | n in s)
  {
    SortSorts(s);
    SameMembers(Sort(s), s);
  }

  ghost function InSomeOrder(names: set<string>): (s: seq<string>)
    ensures Distinct(s) && forall n :: n in s <==> n in names
  {
    if names == {} then []
    else
      var n :| n in names;
      [n] + InSomeOrder(names - {n})
  }

  lemma ListingExists(names: set<string>)
    ensures exists list :: Lists(list, names)
  {
    var some := InSomeOrder(names);
    SortLists(some);
    assert (set n | n in some) == names;
  }

  /** The sorted listing of a set of names. */
  ghost function Listing(names: set<string>): (list: seq<string>)
    ensures Lists(list, names)
  {
    ListingExists(names);
    var list :| Lists(list, names);
    list
  }

  // Printing and parsing are inverse on the timestamp prefix

  lemma DigitCharIs(d: nat)
    requires d < 10
    ensures IsDigit(DigitChar(d)) && (DigitChar(d) - '0') as nat == d
  {}

  lemma {:induction false} DecimalRoundTrip(n: nat)
    ensures DecimalValue(Digits(n, Dec)) == Some(n)
    decreases n
  {
    LastDigit(n, Dec);
    DigitCharIs(n % 10);
    if n >= 10 {
      DecimalRoundTrip(n / 10);
    }
  }

  lemma {:induction false} DigitsPlain(n: nat, r: Radix)
    ensures forall c :: c in Digits(n, r) ==> IsHexDigit(c)
    decreases n
  {
    DigitCharPlain(Split(n, r).1);
    if Split(n, r).0 != 0 {
      DigitsPlain(Split(n, r).0, r);
    }
  }

  predicate IsHexDigit(c: char) { '0' <= c <= '9' || 'a' <= c <= 'f' }

  lemma DigitCharPlain(d: nat)
    requires d < 16
    ensures IsHexDigit(DigitChar(d))
  {}

  lemma FindFirst(a: string, c: char, b: string)
    requires c !in a
    ensures Find(a + [c] + b, c) == Some(|a|)
  {
    var s := a + [c] + b;
    assert s[|a|] == c;
    assert forall i :: |a| < i <= |s| ==> s[..i][|a|] == c;
    assert forall i :: 0 <= i < |a| ==> s[i] == a[i] && a[i] in a;
  }

  /** Parsing the prefix of a generated name gives back its timestamp. */
  lemma ParseTsOfFileName(ts: nat, pid: nat, counter: nat)
    requires ts < U128_LIMIT
    ensures ParseTs(FileName(ts, pid, counter)) == Some(ts)
  {
    var d := Digits(ts, Dec);
    var rest := Digits(pid, Hex) + "-" + (Digits(counter, Hex) + PENDING_SUFFIX);
    DigitsPlain(ts, Dec);
    assert FileName(ts, pid, counter) == d + ['-'] + rest;
    FindFirst(d, '-', rest);
    assert (d + ['-'] + rest)[..|d|] == d;
    assert d[0] in d;
    DecimalRoundTrip(ts);
  }

  lemma FileNameIsPending(ts: nat, pid: nat, counter: nat)
    ensures IsPending(FileName(ts, pid, counter))
  {
    var d, name := Digits(ts, Dec), FileName(ts, pid, counter);
    DigitsPlain(ts, Dec);
    assert name[0] == d[0] && d[0] in d;
    assert name[|name| - 4..] == PENDING_SUFFIX;
  }

  /** Neither the hidden name a file is written under nor the one it is quarantined under is pending. */
  lemma OtherNamesNotPending(name: string)
    ensures !IsPending(TmpName(name))
    ensures IsPending(name) ==> !IsPending(CorruptName(name))
  {
    if IsPending(name) {
      var c := CorruptName(name);
      assert c[|c| - 4..] == "rupt";
    }
  }

  lemma CorruptNameInjective(a: string, b: string)
    requires IsPending(a) && IsPending(b) && CorruptName(a) == CorruptName(b)
    ensures a == b
  {
    var x, y := CorruptName(a), CorruptName(b);
    assert a[..|a| - 4] == x[..|x| - 8] && b[..|b| - 4] == y[..|y| - 8];
    assert a == a[..|a| - 4] + PENDING_SUFFIX && b == b[..|b| - 4] + PENDING_SUFFIX;
  }

  lemma LastDigit(n: nat, r: Radix)
    ensures var (s, high) := (Digits(n, r), Split(n, r).0);
      && s[|s| - 1] == DigitChar(Split(n, r).1)
      && (if high == 0 then |s| == 1 else |s| > 1 && s[..|s| - 1] == Digits(high, r))
  {}

  lemma DigitCharInjective(d: nat, e: nat)
    requires d < 16 && e < 16 && DigitChar(d) == DigitChar(e)
    ensures d == e
  {}

  /** The three names of two queued files never collide across kinds, nor within a kind unless the files are one. */
  lemma NamesApart(a: string, b: string)
    requires IsPending(a) && IsPending(b)
    ensures TmpName(a) != b && CorruptName(a) != b && TmpName(a) != CorruptName(b)
    ensures TmpName(a) == TmpName(b) ==> a == b
    ensures CorruptName(a) == CorruptName(b) ==> a == b
  {
    OtherNamesNotPending(a);
    assert TmpName(a)[0] == '.';
    assert b[|b| - 4] == b[|b| - 4..][0] == PENDING_SUFFIX[0];
    assert CorruptName(b)[0] == b[0];
    if TmpName(a) == TmpName(b) {
      assert a == TmpName(a)[1..][..|a|] && b == TmpName(b)[1..][..|b|];
    }
    if CorruptName(a) == CorruptName(b) {
      CorruptNameInjective(a, b);
    }
  }

  lemma {:induction false} DigitsInjective(m: nat, n: nat, r: Radix)
    requires Digits(m, r) == Digits(n, r)
    ensures m == n
    decreases m
  {
    LastDigit(m, r);
    LastDigit(n, r);
    DigitCharInjective(Split(m, r).1, Split(n, r).1);
    if Split(m, r).0 != 0 {
      DigitsInjective(Split(m, r).0, Split(n, r).0, r);
    }
  }

  lemma SplitAtFirst(a: string, b: string, x: string, y: string, c: char)
    requires c !in a && c !in b && a + [c] + x == b + [c] + y
    ensures a == b && x == y
  {
    FindFirst(a, c, x);
    FindFirst(b, c, y);
    assert a == (a + [c] + x)[..|a|] && b == (b + [c] + y)[..|b|];
    assert x == (a + [c] + x)[|a| + 1..] && y == (b + [c] + y)[|b| + 1..];
  }

  /** A name determines the millisecond, process and counter it was made from: reuse means reuse of all three. */
  lemma FileNameInjective(ts: nat, pid: nat, k: nat, ts': nat, pid': nat, k': nat)
    requires FileName(ts, pid, k) == FileName(ts', pid', k')
    ensures ts == ts' && pid == pid' && k == k'
  {
    DigitsPlain(ts, Dec);
    DigitsPlain(ts', Dec);
    DigitsPlain(pid, Hex);
    DigitsPlain(pid', Hex);
    var e, e' := Digits(k, Hex) + PENDING_SUFFIX, Digits(k', Hex) + PENDING_SUFFIX;
    var r, r' := Digits(pid, Hex) + "-" + e, Digits(pid', Hex) + "-" + e';
    SplitAtFirst(Digits(ts, Dec), Digits(ts', Dec), r, r', '-');
    SplitAtFirst(Digits(pid, Hex), Digits(pid', Hex), e, e', '-');
    assert Digits(k, Hex) == e[..|e| - 4] && Digits(k', Hex) == e'[..|e'| - 4];
    DigitsInjective(ts, ts', Dec);
    DigitsInjective(pid, pid', Hex);
    DigitsInjective(k, k', Hex);
  }

  // Lexicographic order is chronological among prefixes of one length

  lemma {:induction false} LessOfPrefix(a: string, b: string, x: string, y: string)
    requires |a| == |b| && Less(a, b)
    ensures Less(a + x, b + y)
    decreases |a|
  {
    if a[0] == b[0] {
      LessOfPrefix(a[1..], b[1..], x, y);
      assert (a + x)[1..] == a[1..] + x && (b + y)[1..] == b[1..] + y;
    }
  }

  lemma {:induction false} LessAfterPrefix(p: string, a: string, b: string)
    requires Less(a, b)
    ensures Less(p + a, p + b)
    decreases |p|
  {
    if p == "" {
      assert p + a == a && p + b == b;
    } else {
      LessAfterPrefix(p[1..], a, b);
      assert (p + a)[1..] == p[1..] + a && (p + b)[1..] == p[1..] + b;
    }
  }

  lemma {:induction false} DigitsOrdered(m: nat, n: nat)
    requires m < n && |Digits(m, Dec)| == |Digits(n, Dec)|
    ensures Less(Digits(m, Dec), Digits(n, Dec))
    decreases n
  {
    LastDigit(m, Dec);
    LastDigit(n, Dec);
    if n >= 10 {
      var a, b := Digits(m / 10, Dec), Digits(n / 10, Dec);
      var x, y := [DigitChar(m % 10)], [DigitChar(n % 10)];
      if m / 10 < n / 10 {
        DigitsOrdered(m / 10, n / 10);
        LessOfPrefix(a, b, x, y);
      } else {
        LessAfterPrefix(a, x, y);
      }
    }
  }

  lemma PrefixDecides(ts: nat, x: string, ts': nat, x': string)
    requires |Digits(ts, Dec)| == |Digits(ts', Dec)| && Less(Digits(ts, Dec) + x, Digits(ts', Dec) + x')
    ensures ts <= ts'
  {
    if ts > ts' {
      DigitsOrdered(ts', ts);
      LessOfPrefix(Digits(ts', Dec), Digits(ts, Dec), x', x);
      LessAsymmetric(Digits(ts, Dec) + x, Digits(ts', Dec) + x');
    }
  }

  function Rest(pid: nat, counter: nat): string {
    "-" + (Digits(pid, Hex) + "-" + (Digits(counter, Hex) + PENDING_SUFFIX))
  }

  /** With equally many digits, a name that sorts first carries a timestamp that is not later. */
  lemma ChronologicalOrder(ts: nat, pid: nat, k: nat, ts': nat, pid': nat, k': nat)
    requires |Digits(ts, Dec)| == |Digits(ts', Dec)|
    requires Less(FileName(ts, pid, k), FileName(ts', pid', k'))
    ensures ts <= ts'
  {
    assert FileName(ts, pid, k) == Digits(ts, Dec) + Rest(pid, k);
    assert FileName(ts', pid', k') == Digits(ts', Dec) + Rest(pid', k');
    PrefixDecides(ts, Rest(pid, k), ts', Rest(pid', k'));
  }
}
