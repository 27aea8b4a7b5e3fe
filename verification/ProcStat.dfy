/** read_start_time: field 22 of /proc/<pid>/stat, scanned with one pointer. */
module ProcStat {

  import opened Decimal
  import opened Splitting
  import opened Wrappers

  const MAX_U64 := 0x1_0000_0000_0000_0000

  // A C string ends at its first NUL.
  function CString(s: string): (r: string)
    ensures r <= s && '\0' !in r && ('\0' !in s ==> r == s)
  {
    Before(s, '\0')
  }

  // strrchr.
  function LastIndex(s: string, c: char): (r: Option<nat>)
    ensures r.None? ==> c !in s
    ensures r.Some? ==> r.value < |s| && s[r.value] == c && forall i :: r.value < i < |s| ==> s[i] != c
  {
    if s == "" then None
    else if s[|s| - 1] == c then Some(|s| - 1)
    else LastIndex(s[..|s| - 1], c)
  }

  // ── strtoull(p, &end, 10) ───────────────────────────────────────────────

  predicate IsSpace(c: char) {
    c == ' ' || 9 <= c as int <= 13
  }

  function SkipWhite(s: string): string {
    if s != "" && IsSpace(s[0]) then SkipWhite(s[1..]) else s
  }

  function Digits(s: string): (ds: string)
    ensures AllDigits(ds) && ds <= s && (|ds| < |s| ==> !IsDigit(s[|ds|]))
  {
    if s != "" && IsDigit(s[0]) then [s[0]] + Digits(s[1..]) else ""
  }

  function Unsigned(t: string): (u: string)
    ensures |u| <= |t|
  {
    if t != "" && (t[0] == '-' || t[0] == '+') then t[1..] else t
  }

  // The digits at the front, after an optional sign, if there are any and they fit.
  // A minus sign negates in the unsigned type.
  function Numeral(t: string): (r: Option<nat>)
    ensures r.Some? ==> r.value < MAX_U64
  {
    var ds := Digits(Unsigned(t));
    if ds == "" || ValueOf(ds) >= MAX_U64 then None
    else Some(if t[0] == '-' && ValueOf(ds) > 0 then MAX_U64 - ValueOf(ds) else ValueOf(ds))
  }

  // The value, or None when there are no digits or it overflows.
  function Strtoull(s: string): (r: Option<nat>)
    ensures r.Some? ==> r.value < MAX_U64
  {
    Numeral(SkipWhite(s))
  }

  // ── Fields ──────────────────────────────────────────────────────────────

  // A field starts at i: a character other than a space, first of the text or
  // after a space.
  predicate Starts(s: string, i: nat) {
    i < |s| && s[i] != ' ' && (i == 0 || s[i - 1] == ' ')
  }

  function StartsBefore(s: string, i: nat): (n: nat)
    requires i <= |s|
  {
    if i == 0 then 0 else StartsBefore(s, i - 1) + if Starts(s, i - 1) then 1 else 0
  }

  // The n-th field of s, counting from 1, starts at i.
  predicate IsField(s: string, n: nat, i: nat) {
    i < |s| && Starts(s, i) && StartsBefore(s, i) + 1 == n
  }

  lemma {:induction false} MoreStarts(s: string, i: nat, j: nat)
    requires i <= j <= |s|
    ensures StartsBefore(s, i) <= StartsBefore(s, j)
    ensures i < j && Starts(s, i) ==> StartsBefore(s, i) < StartsBefore(s, j)
  {
    if i < j {
      MoreStarts(s, i, j - 1);
    }
  }

  lemma FieldIsUnique(s: string, n: nat, i: nat, j: nat)
    requires IsField(s, n, i) && IsField(s, n, j)
    ensures i == j
  {
    if i < j {
      MoreStarts(s, i, j);
    } else if j < i {
      MoreStarts(s, j, i);
    }
  }

  // The scan over what follows the last ')'. The first field there is field 3, so
  // field 22 is the twentieth.
  method ScanFields(s: string) returns (o: Option<nat>)
    ensures forall i: nat :: IsField(s, 20, i) ==> o == Strtoull(s[i..])
    ensures StartsBefore(s, |s|) < 20 ==> o.None?
  {
    var p, field := 0, 2;
    while p < |s|
      invariant p <= |s| && field < 22 && StartsBefore(s, p) == field - 2
      invariant p == 0 || p == |s| || s[p] == ' '
      decreases |s| - p
    {
      ghost var start := p;
      while p < |s| && s[p] == ' '
        invariant start <= p <= |s| && StartsBefore(s, p) == field - 2
        invariant p == 0 || p == |s| || s[p] == ' ' || s[p - 1] == ' '
      {
        p := p + 1;
      }
      if p == |s| {
        break;
      }
      field := field + 1;
      if field == 22 {
        assert IsField(s, 20, p);
        o := Strtoull(s[p..]);
        forall i: nat | IsField(s, 20, i) ensures i == p {
          FieldIsUnique(s, 20, i, p);
        }
        MoreStarts(s, p, |s|);
        return;
      }
      ghost var at := p;
      assert StartsBefore(s, at + 1) == field - 2;
      while p < |s| && s[p] != ' '
        invariant at <= p <= |s| && (p > at ==> s[p - 1] != ' ' && StartsBefore(s, p) == field - 2)
      {
        p := p + 1;
      }
    }
    forall i: nat | IsField(s, 20, i) ensures false {
      MoreStarts(s, i, |s|);
    }
    o := None;
  }

  lemma {:induction false} FieldExists(s: string, n: nat, j: nat) returns (i: nat)
    requires j <= |s| && 0 < n <= StartsBefore(s, j)
    ensures IsField(s, n, i)
  {
    if StartsBefore(s, j - 1) < n {
      i := j - 1;
    } else {
      i := FieldExists(s, n, j - 1);
    }
  }

  // Field 22 as the kernel documents it: the twentieth field after the last ')'.
  ghost function StartTime(file: string): Option<nat> {
    var contents := CString(file);
    var p := LastIndex(contents, ')');
    if p.None? then None else TwentiethField(contents[p.value + 1..])
  }

  ghost function TwentiethField(s: string): Option<nat> {
    if exists i: nat :: IsField(s, 20, i) then
      var i: nat :| IsField(s, 20, i);
      Strtoull(s[i..])
    else
      None
  }

  // The file, or None when it cannot be read.
  method ReadStartTime(file: Option<string>) returns (o: Option<nat>)
    ensures o == if file.None? then None else StartTime(file.value)
  {
    if file.None? {
      return None;
    }
    var contents := CString(file.value);
    var p := LastIndex(contents, ')');
    if p.None? {
      return None;
    }
    var s := contents[p.value + 1..];
    o := ScanFields(s);
    if StartsBefore(s, |s|) >= 20 {
      ghost var i := FieldExists(s, 20, |s|);
    } else {
      forall i: nat | IsField(s, 20, i) ensures false {
        MoreStarts(s, i, |s|);
      }
    }
  }

  // ── The printer ─────────────────────────────────────────────────────────

  predicate Token(t: string) {
    |t| > 0 && ' ' !in t && ')' !in t && '\0' !in t
  }

  function Join(tail: seq<string>): string {
    if tail == [] then "" else Join(tail[..|tail| - 1]) + " " + tail[|tail| - 1]
  }

  // The line the kernel prints: the pid, the comm in parentheses, and fields 3 and
  // up.
  function Stat(pid: string, comm: string, tail: seq<string>): string {
    pid + " (" + comm + ")" + (Join(tail) + "\n")
  }

  lemma {:induction false} PrefixStarts(a: string, b: string, i: nat)
    requires i <= |a|
    ensures StartsBefore(a + b, i) == StartsBefore(a, i)
  {
    if i > 0 {
      PrefixStarts(a, b, i - 1);
    }
  }

  lemma {:induction false} InsideToken(s: string, i: nat, j: nat)
    requires i < j <= |s| && Starts(s, i) && forall k :: i <= k < j ==> s[k] != ' '
    ensures StartsBefore(s, j) == StartsBefore(s, i) + 1
  {
    if i + 1 < j {
      InsideToken(s, i, j - 1);
    }
  }

  lemma {:induction false} JoinStarts(tail: seq<string>)
    requires forall k :: 0 <= k < |tail| ==> Token(tail[k])
    ensures StartsBefore(Join(tail), |Join(tail)|) == |tail|
    ensures ')' !in Join(tail) && '\0' !in Join(tail)
  {
    if tail != [] {
      var most, t := Join(tail[..|tail| - 1]), tail[|tail| - 1];
      JoinStarts(tail[..|tail| - 1]);
      var s := Join(tail);
      assert s == most + (" " + t);
      PrefixStarts(most, " " + t, |most|);
      assert s[|most|] == ' ' && forall k :: |most| < k < |s| ==> s[k] == t[k - |most| - 1];
      assert StartsBefore(s, |most| + 1) == StartsBefore(s, |most|);
      InsideToken(s, |most| + 1, |s|);
    }
  }

  lemma {:induction false} JoinPrefix(tail: seq<string>, n: nat) returns (rest: string)
    requires n <= |tail|
    ensures Join(tail) == Join(tail[..n]) + rest
    ensures rest == "" || rest[0] == ' '
  {
    if n == |tail| {
      assert tail[..n] == tail;
      rest := "";
    } else {
      var most := tail[..|tail| - 1];
      assert most[..n] == tail[..n];
      rest := JoinPrefix(most, n);
      assert Join(tail) == Join(tail[..n]) + (rest + (" " + tail[|tail| - 1]));
      rest := rest + (" " + tail[|tail| - 1]);
    }
  }

  // The n-th field of a printed tail is its n-th token.
  lemma NthToken(tail: seq<string>, n: nat) returns (i: nat, rest: string)
    requires 0 < n <= |tail| && forall k :: 0 <= k < |tail| ==> Token(tail[k])
    ensures IsField(Join(tail) + "\n", n, i)
    ensures (Join(tail) + "\n")[i..] == tail[n - 1] + rest
    ensures Join(tail) + "\n" == Join(tail[..n]) + rest
    ensures rest != "" && rest[0] in {' ', '\n'}
  {
    var before, t := Join(tail[..n - 1]), tail[n - 1];
    var later := JoinPrefix(tail, n);
    assert tail[..n][..n - 1] == tail[..n - 1];
    rest := later + "\n";
    var s := Join(tail) + "\n";
    i := |before| + 1;
    assert s == before + (" " + t + rest) == (before + " ") + (t + rest);
    JoinStarts(tail[..n - 1]);
    PrefixStarts(before, " " + t + rest, |before|);
    assert s[|before|] == ' ' && s[i] == t[0];
  }

  lemma CountFields(tail: seq<string>)
    requires forall k :: 0 <= k < |tail| ==> Token(tail[k])
    ensures var s := Join(tail) + "\n"; StartsBefore(s, |s|) == if tail == [] then 1 else |tail|
  {
    var joined := Join(tail);
    JoinStarts(tail);
    PrefixStarts(joined, "\n", |joined|);
    if tail == [] {
      assert joined + "\n" == "\n";
    } else {
      assert joined[|joined| - 1] == tail[|tail| - 1][|tail[|tail| - 1]| - 1];
    }
  }

  lemma LastIndexIs(s: string, c: char, i: nat)
    requires i < |s| && s[i] == c && forall j :: i < j < |s| ==> s[j] != c
    ensures LastIndex(s, c) == Some(i)
  {
    var r := LastIndex(s, c);
    assert c in s;
  }

  lemma LastParen(head: string, b: string)
    requires '\0' !in head && '\0' !in b && ')' !in b
    ensures var s := head + ")" + b;
      CString(s) == s && LastIndex(s, ')') == Some(|head|) && s[|head| + 1..] == b
  {
    var s := head + ")" + b;
    assert s[|head|] == ')';
    forall j | |head| < j < |s| ensures s[j] != ')' {
      assert s[j] == b[j - |head| - 1];
    }
    LastIndexIs(s, ')', |head|);
  }

  lemma TwentiethToken(tail: seq<string>) returns (rest: string)
    requires forall k :: 0 <= k < |tail| ==> Token(tail[k])
    ensures TwentiethField(Join(tail) + "\n") == if |tail| < 20 then None else Strtoull(tail[19] + rest)
    ensures |tail| >= 20 ==> Join(tail) + "\n" == Join(tail[..20]) + rest
    ensures rest != "" && rest[0] in {' ', '\n'}
  {
    var s := Join(tail) + "\n";
    rest := " ";
    if |tail| >= 20 {
      var i;
      i, rest := NthToken(tail, 20);
      forall j: nat | IsField(s, 20, j) ensures j == i {
        FieldIsUnique(s, 20, i, j);
      }
    } else {
      CountFields(tail);
      forall i: nat | IsField(s, 20, i) ensures false {
        MoreStarts(s, i, |s|);
      }
    }
  }

  // The scanner inverts the printer, whatever the comm holds: it reads the
  // twentieth token, or fails when there are fewer.
  lemma StartTimeOfStat(pid: string, comm: string, tail: seq<string>) returns (rest: string)
    requires '\0' !in pid && '\0' !in comm && forall k :: 0 <= k < |tail| ==> Token(tail[k])
    ensures |tail| < 20 ==> StartTime(Stat(pid, comm, tail)) == None
    ensures |tail| >= 20 ==> StartTime(Stat(pid, comm, tail)) == Strtoull(tail[19] + rest)
    ensures |tail| >= 20 ==> Join(tail) + "\n" == Join(tail[..20]) + rest
    ensures rest != "" && rest[0] in {' ', '\n'}
  {
    var head, s := pid + " (" + comm, Join(tail) + "\n";
    JoinStarts(tail);
    LastParen(head, s);
    assert Stat(pid, comm, tail) == head + ")" + s;
    assert StartTime(Stat(pid, comm, tail)) == TwentiethField(s);
    rest := TwentiethToken(tail);
  }

  lemma {:induction false} DigitsThen(t: string, rest: string)
    requires rest == "" || !IsDigit(rest[0])
    ensures Digits(t + rest) == Digits(t)
  {
    if t == "" {
      assert t + rest == rest;
    } else {
      assert (t + rest)[1..] == t[1..] + rest;
      DigitsThen(t[1..], rest);
    }
  }

  lemma {:induction false} SkipWhiteThen(t: string, rest: string)
    ensures SkipWhite(t + rest) == if SkipWhite(t) == "" then SkipWhite(rest) else SkipWhite(t) + rest
  {
    if t == "" {
      assert t + rest == rest;
    } else {
      assert (t + rest)[1..] == t[1..] + rest;
      SkipWhiteThen(t[1..], rest);
    }
  }

  lemma NumeralEnds(t: string, rest: string)
    requires t != "" && rest != "" && rest[0] in {' ', '\n'}
    ensures Numeral(t + rest) == Numeral(t)
  {
    assert (t + rest)[0] == t[0] && (t + rest)[1..] == t[1..] + rest;
    assert Unsigned(t + rest) == Unsigned(t) + rest;
    DigitsThen(Unsigned(t), rest);
  }

  // strtoull is given the rest of the line, not the field. It reads the field's own
  // value unless the field is nothing but white space: then it reads what follows.
  lemma StrtoullOfField(t: string, rest: string)
    requires rest != "" && rest[0] in {' ', '\n'}
    ensures Strtoull(t + rest) == if SkipWhite(t) == "" then Strtoull(rest) else Numeral(SkipWhite(t))
  {
    SkipWhiteThen(t, rest);
    if SkipWhite(t) != "" {
      NumeralEnds(SkipWhite(t), rest);
    }
  }

  // Field 22 is read exactly as what it says, and a field that says nothing is a
  // failure, as long as it does not start with white space: so is one whose digits
  // do not fit 64 bits.
  lemma StartTimeIsTheField(pid: string, comm: string, tail: seq<string>)
    requires '\0' !in pid && '\0' !in comm && forall k :: 0 <= k < |tail| ==> Token(tail[k])
    requires |tail| >= 20 && Token(tail[19]) && !IsSpace(tail[19][0])
    ensures StartTime(Stat(pid, comm, tail)) == Numeral(tail[19])
    ensures StartTime(Stat(pid, comm, tail)) == None <==>
      Digits(Unsigned(tail[19])) == "" || ValueOf(Digits(Unsigned(tail[19]))) >= 0x1_0000_0000_0000_0000
  {
    var rest := StartTimeOfStat(pid, comm, tail);
    StrtoullOfField(tail[19], rest);
  }

  // A decimal start time is read exactly when it fits 64 bits.
  lemma StartTimeRoundTrip(pid: string, comm: string, tail: seq<string>, n: nat)
    requires '\0' !in pid && '\0' !in comm && forall k :: 0 <= k < |tail| ==> Token(tail[k])
    requires |tail| >= 20 && tail[19] == Print(n)
    ensures StartTime(Stat(pid, comm, tail)) == if n < 0x1_0000_0000_0000_0000 then Some(n) else None
  {
    PrintRoundTrip(n);
    StartTimeIsTheField(pid, comm, tail);
    AllDigitsAre(tail[19]);
  }

  lemma {:induction false} AllDigitsAre(ds: string)
    requires AllDigits(ds)
    ensures Digits(ds) == ds
  {
    if ds != "" {
      AllDigitsAre(ds[1..]);
    }
  }

  lemma NumeralOf(sign: char, ds: string, n: nat)
    requires sign in {'+', '-'} && ds != "" && AllDigits(ds) && Digits(ds) == ds && ValueOf(ds) == n
    ensures Numeral([sign] + ds)
      == if n >= 0x1_0000_0000_0000_0000 then None
         else if sign == '-' && n > 0 then Some(0x1_0000_0000_0000_0000 - n) else Some(n)
  {
    var t := [sign] + ds;
    assert t[0] == sign && t[1..] == ds;
    assert Unsigned(t) == ds;
  }

  // A sign is taken: a plus changes nothing, a minus negates modulo 2^64.
  lemma SignedNumerals(sign: char, n: nat)
    requires sign in {'+', '-'}
    ensures Numeral([sign] + Print(n))
      == if n >= 0x1_0000_0000_0000_0000 then None
         else if sign == '-' && n > 0 then Some(0x1_0000_0000_0000_0000 - n) else Some(n)
  {
    PrintRoundTrip(n);
    AllDigitsAre(Print(n));
    NumeralOf(sign, Print(n), n);
  }

  // What follows the twentieth token starts with the next one.
  lemma NextToken(tail: seq<string>, rest: string) returns (later: string)
    requires |tail| > 20 && Join(tail) + "\n" == Join(tail[..20]) + rest
    ensures rest == " " + tail[20] + later && later != "" && later[0] in {' ', '\n'}
  {
    var more := JoinPrefix(tail, 21);
    later := more + "\n";
    assert tail[..21][..20] == tail[..20];
    assert Join(tail) + "\n" == Join(tail[..20]) + (" " + tail[20] + later);
    SameRest(Join(tail[..20]), rest, " " + tail[20] + later);
  }

  lemma SameRest(a: string, b: string, c: string)
    requires a + b == a + c
    ensures b == c
  {
    assert (a + b)[|a|..] == b && (a + c)[|a|..] == c;
  }

  // Without the condition on white space it is false: a field that is nothing but
  // white space, a tab for one, has no digits, and the start time is read from the
  // next field.
  lemma WhiteFieldIsSkipped(pid: string, comm: string, tail: seq<string>, n: nat)
    requires '\0' !in pid && '\0' !in comm && forall k :: 0 <= k < |tail| ==> Token(tail[k])
    requires |tail| > 20 && SkipWhite(tail[19]) == "" && tail[20] == Print(n)
    ensures StartTime(Stat(pid, comm, tail)) == if n < 0x1_0000_0000_0000_0000 then Some(n) else None
  {
    var rest := StartTimeOfStat(pid, comm, tail);
    StrtoullOfField(tail[19], rest);
    var later := NextToken(tail, rest);
    BlankThenNumeral(n, later);
  }

  lemma BlankThenNumeral(n: nat, later: string)
    requires later != "" && later[0] in {' ', '\n'}
    ensures Strtoull(" " + Print(n) + later) == if n < 0x1_0000_0000_0000_0000 then Some(n) else None
  {
    var t := " " + Print(n);
    assert t[1..] == Print(n) && IsDigit(Print(n)[0]);
    StrtoullOfField(t, later);
    PrintRoundTrip(n);
    AllDigitsAre(Print(n));
  }

  lemma TabIsAToken()
    ensures Token("\t") && SkipWhite("\t") == "" && Digits(Unsigned("\t")) == ""
    ensures Strtoull("\t" + " 5\n") == Some(5)
  {
    var rest := " 5\n";
    StrtoullOfField("\t", rest);
    assert rest[1..] == "5\n" && SkipWhite(rest) == "5\n";
    DigitsThen("5", "\n");
    assert Digits("5") == "5" && ValueOf("5") == 5;
  }
}
