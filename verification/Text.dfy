/** The string operations the twin borrows from Go's standard library: whitespace
    splitting, decimal formatting, case folding and bytewise order. */
module Text {

  // unicode.IsSpace, the test behind strings.TrimSpace and strings.Fields.
  predicate IsSpace(c: char) {
    var n := c as int;
    9 <= n <= 13 || n == 32 || n == 0x85 || n == 0xA0 || n == 0x1680 || 0x2000 <= n <= 0x200a
    || n == 0x2028 || n == 0x2029 || n == 0x202f || n == 0x205f || n == 0x3000
  }

  // The table spelled out: tab to carriage return, space, next line, no-break space, ogham space, the
  // eleven typographic spaces, line and paragraph separator, and the three other spaces.
  lemma SpacesAre(c: char)
    ensures IsSpace(c)
            <==> (c as int) in {9, 10, 11, 12, 13, 32, 133, 160, 5760, 8192, 8193, 8194, 8195, 8196, 8197, 8198, 8199,
                                8200, 8201, 8202, 8232, 8233, 8239, 8287, 12288}
  {
  }

  predicate NoSpace(s: string) {
    forall i :: 0 <= i < |s| ==> !IsSpace(s[i])
  }

  function TrimLeft(s: string): (r: string)
    ensures |r| <= |s|
    ensures r == "" || !IsSpace(r[0])
  {
    if s != "" && IsSpace(s[0]) then TrimLeft(s[1..]) else s
  }

  function TrimRight(s: string): (r: string)
    ensures |r| <= |s|
  {
    if s != "" && IsSpace(s[|s| - 1]) then TrimRight(s[..|s| - 1]) else s
  }

  function TrimSpace(s: string): string {
    TrimRight(TrimLeft(s))
  }

  // The longest prefix without whitespace.
  function Word(s: string): (r: string)
    ensures |r| <= |s| && r == s[..|r|] && NoSpace(r)
    ensures s != "" && !IsSpace(s[0]) ==> r != ""
  {
    if s == "" || IsSpace(s[0]) then "" else [s[0]] + Word(s[1..])
  }

  // strings.Fields: the maximal runs of non-whitespace characters.
  function Fields(s: string): (r: seq<string>)
    ensures forall i :: 0 <= i < |r| ==> r[i] != "" && NoSpace(r[i])
    decreases |s|
  {
    var t := TrimLeft(s);
    if t == "" then [] else
      var w := Word(t);
      [w] + Fields(t[|w|..])
  }

  // strings.Split at newlines.
  function Lines(s: string): (r: seq<string>)
    ensures |r| >= 1
  {
    if s == "" then [""] else
      var rest := Lines(s[1..]);
      if s[0] == '\n' then [""] + rest else [[s[0]] + rest[0]] + rest[1..]
  }

  lemma {:induction false} WordStops(a: string, b: string)
    requires NoSpace(a) && (b == "" || IsSpace(b[0]))
    ensures Word(a + b) == a
  {
    if a != "" {
      assert (a + b)[1..] == a[1..] + b;
      WordStops(a[1..], b);
    } else {
      assert a + b == b;
    }
  }

  lemma {:induction false} WordEnds(s: string)
    ensures |Word(s)| == |s| || IsSpace(s[|Word(s)|])
  {
    if s != "" && !IsSpace(s[0]) {
      WordEnds(s[1..]);
    }
  }

  // Leading whitespace is trimmed off the first part that holds anything else.
  lemma {:induction false} TrimLeftAppend(a: string, b: string)
    ensures TrimLeft(a + b) == if TrimLeft(a) == "" then TrimLeft(b) else TrimLeft(a) + b
  {
    if a == "" {
      assert a + b == b;
    } else if IsSpace(a[0]) {
      assert (a + b)[1..] == a[1..] + b;
      TrimLeftAppend(a[1..], b);
    }
  }

  lemma FieldsStep(t: string)
    requires t != "" && !IsSpace(t[0])
    ensures Word(t) != "" && Fields(t) == [Word(t)] + Fields(t[|Word(t)|..])
  {
    assert TrimLeft(t) == t;
  }

  // Text after a space leaves the first word as it is.
  lemma WordPrefix(t: string, r: string)
    requires r != "" && IsSpace(r[0])
    ensures Word(t + r) == Word(t) && (t + r)[|Word(t)|..] == t[|Word(t)|..] + r
  {
    WordEnds(t);
    hide Word;
    var w := Word(t);
    var rest := t[|w|..];
    assert t == w + rest;
    assert t + r == w + (rest + r);
    WordStops(w, rest + r);
  }

  // The first field and what is left, when more text follows after a space.
  lemma FirstField(t: string, b: string)
    requires t != "" && !IsSpace(t[0])
    ensures var w, r := Word(t), " " + b;
            && w != "" && Fields(t) == [w] + Fields(t[|w|..])
            && Fields(t + r) == [w] + Fields(t[|w|..] + r)
  {
    var w, r := Word(t), " " + b;
    FieldsStep(t);
    WordEnds(t);
    hide *;
    WordPrefix(t, r);
    FieldsStep(t + r);
  }

  lemma TrimmedFields(s: string)
    ensures Fields(TrimLeft(s)) == Fields(s)
  {
    assert TrimLeft(TrimLeft(s)) == TrimLeft(s);
  }

  // A word set apart by a space is one more field.
  lemma {:induction false} FieldsOfLine(a: string, b: string)
    requires b != "" && NoSpace(b)
    ensures Fields(a + " " + b) == Fields(a) + [b]
    decreases |a|
  {
    var t, r := TrimLeft(a), " " + b;
    assert a + " " + b == a + r;
    TrimLeftAppend(a, r);
    TrimmedFields(a);
    TrimmedFields(a + r);
    if t == "" {
      assert r[1..] == b && TrimLeft(b) == b && TrimLeft(r) == b;
      TrimmedFields(r);
      FieldsOfWord(b);
      assert Fields("") == [];
    } else {
      hide Fields; hide TrimLeft; hide Word; hide NoSpace;
      FirstField(t, b);
      var rest := t[|Word(t)|..];
      assert rest + r == rest + " " + b;
      FieldsOfLine(rest, b);
    }
  }

  lemma FieldsOfWord(a: string)
    requires a != "" && NoSpace(a)
    ensures Fields(a) == [a]
  {
    assert a + "" == a;
    WordStops(a, "");
    assert a[|a|..] == "";
  }

  lemma {:induction false} LinesStep(line: string, rest: string)
    requires NoSpace(line) || forall i :: 0 <= i < |line| ==> line[i] != '\n'
    ensures Lines(line + "\n" + rest) == [line] + Lines(rest)
  {
    var s := line + "\n" + rest;
    if line == "" {
      assert s[1..] == rest;
    } else {
      assert s[1..] == line[1..] + "\n" + rest;
      LinesStep(line[1..], rest);
      assert [line[0]] + line[1..] == line;
    }
  }

  lemma {:induction false} LinesOne(line: string)
    requires forall i :: 0 <= i < |line| ==> line[i] != '\n'
    ensures Lines(line) == [line]
  {
    if line != "" {
      LinesOne(line[1..]);
      assert [line[0]] + line[1..] == line;
    }
  }

  // fmt's %d for a non-negative counter.
  function Digits(n: nat): (s: string)
    ensures s != ""
  {
    (if n < 10 then "" else Digits(n / 10)) + ["0123456789"[n % 10]]
  }

  function Zeros(k: nat): (s: string)
    ensures |s| == k
  {
    if k == 0 then "" else Zeros(k - 1) + "0"
  }

  // fmt's %012d: at least twelve digits, more when the counter needs them.
  function Pad12(n: nat): string {
    var d := Digits(n);
    if |d| < 12 then Zeros(12 - |d|) + d else d
  }

  // fmt.Sprintf("dtu-%012d", n)
  function Guid(n: nat): string {
    "dtu-" + Pad12(n)
  }

  function DigitValue(c: char): nat {
    if '0' <= c <= '9' then c as int - '0' as int else 0
  }

  // Reading a digit string back as a number.
  function Value(s: string): nat {
    if s == "" then 0 else 10 * Value(s[..|s| - 1]) + DigitValue(s[|s| - 1])
  }

  lemma {:induction false} ValueOfDigits(n: nat)
    ensures Value(Digits(n)) == n
  {
    var s := Digits(n);
    var d := "0123456789"[n % 10];
    assert DigitValue(d) == n % 10;
    if n < 10 {
      assert s == [d];
    } else {
      assert s[..|s| - 1] == Digits(n / 10);
      ValueOfDigits(n / 10);
    }
  }

  lemma {:induction false} ValueOfPadded(k: nat, s: string)
    ensures Value(Zeros(k) + s) == Value(s)
    decreases k + |s|
  {
    var t := Zeros(k) + s;
    if s != "" {
      assert t[..|t| - 1] == Zeros(k) + s[..|s| - 1];
      ValueOfPadded(k, s[..|s| - 1]);
    } else if k > 0 {
      assert t == Zeros(k) && t[..|t| - 1] == Zeros(k - 1) + "";
      ValueOfPadded(k - 1, "");
    }
  }

  lemma GuidInjective(m: nat, n: nat)
    ensures Guid(m) == Guid(n) <==> m == n
  {
    if Guid(m) == Guid(n) {
      assert Guid(m)[4..] == Pad12(m) && Guid(n)[4..] == Pad12(n);
      ValueOfPad12(m);
      ValueOfPad12(n);
    }
  }

  // What a GUID looks like: the prefix, then at least twelve digits that read back as the counter,
  // padded with zeros only as far as the twelfth.
  lemma GuidText(n: nat)
    ensures var s := Guid(n);
            && |s| >= 16 && s[..4] == "dtu-" && Value(s[4..]) == n
            && (forall i :: 4 <= i < |s| ==> '0' <= s[i] <= '9') && (|s| > 16 ==> s[4] != '0')
  {
    ValueOfPad12(n);
    DigitsAreDigits(n);
    var d := Digits(n);
    assert Guid(n)[4..] == Pad12(n);
    if |d| < 12 {
      ZerosAreZeros(12 - |d|);
    }
  }

  lemma {:induction false} ZerosAreZeros(k: nat)
    ensures forall i :: 0 <= i < k ==> Zeros(k)[i] == '0'
  {
    if k > 0 {
      ZerosAreZeros(k - 1);
    }
  }

  lemma {:induction false} DigitsAreDigits(n: nat)
    ensures forall i :: 0 <= i < |Digits(n)| ==> '0' <= Digits(n)[i] <= '9'
    ensures |Digits(n)| > 1 ==> Digits(n)[0] != '0'
    ensures n > 0 ==> Digits(n)[0] != '0'
  {
    if n >= 10 {
      DigitsAreDigits(n / 10);
    }
  }

  lemma ValueOfPad12(n: nat)
    ensures Value(Pad12(n)) == n
  {
    ValueOfDigits(n);
    var d := Digits(n);
    if |d| < 12 {
      ValueOfPadded(12 - |d|, d);
    }
  }

  /** Unicode case mapping, one character at a time: `lower` is unicode.ToLower and
      `fold` names the folding orbit strings.EqualFold compares. Neither map
      determines the other, so both are parameters. */
  datatype Casing = Casing(lower: char -> char, fold: char -> char) {
    // The only fact about case mapping the twin relies on: '/' is mapped to by itself alone.
    ghost predicate Valid() {
      forall c: char :: lower(c) == '/' <==> c == '/'
    }

    function ToLower(s: string): (r: string)
      ensures |r| == |s|
      ensures forall i :: 0 <= i < |s| ==> r[i] == lower(s[i])
    {
      if s == "" then "" else [lower(s[0])] + ToLower(s[1..])
    }

    function Folded(s: string): (r: string)
      ensures |r| == |s|
      ensures forall i :: 0 <= i < |s| ==> r[i] == fold(s[i])
    {
      if s == "" then "" else [fold(s[0])] + Folded(s[1..])
    }

    lemma EqualFoldIsFolded(a: string, b: string)
      ensures EqualFold(a, b) <==> Folded(a) == Folded(b)
    {
    }

    predicate EqualFold(a: string, b: string) {
      |a| == |b| && forall i :: 0 <= i < |a| ==> fold(a[i]) == fold(b[i])
    }
  }

  // The bytewise order of sort.Strings.
  predicate Before(a: string, b: string) {
    if b == "" then false
    else if a == "" then true
    else if a[0] != b[0] then a[0] < b[0]
    else Before(a[1..], b[1..])
  }

  lemma {:induction false} BeforeTotal(a: string, b: string)
    ensures a != b ==> Before(a, b) || Before(b, a)
    ensures !(Before(a, b) && Before(b, a)) && !Before(a, a)
  {
    if a != "" && b != "" && a[0] == b[0] {
      BeforeTotal(a[1..], b[1..]);
      if a[1..] == b[1..] {
        assert a == [a[0]] + a[1..] && b == [b[0]] + b[1..];
      }
    }
    if a != "" {
      BeforeTotal(a[1..], a[1..]);
    }
  }

  lemma {:induction false} BeforeTransitive(a: string, b: string, c: string)
    requires Before(a, b) && Before(b, c)
    ensures Before(a, c)
  {
    if a != "" && a[0] == b[0] && b[0] == c[0] {
      BeforeTransitive(a[1..], b[1..], c[1..]);
    }
  }

  // That order, said of positions: a ends where b goes on, or has the smaller character at the
  // first place where they differ.
  lemma {:induction false} BeforeIsLexicographic(a: string, b: string)
    ensures Before(a, b)
            <==> exists k :: 0 <= k <= |a| && k < |b| && a[..k] == b[..k] && (k == |a| || a[k] < b[k])
  {
    if b != "" && a != "" {
      BeforeIsLexicographic(a[1..], b[1..]);
      var a', b' := a[1..], b[1..];
      if a[0] == b[0] {
        if Before(a', b') {
          var k :| 0 <= k <= |a'| && k < |b'| && a'[..k] == b'[..k] && (k == |a'| || a'[k] < b'[k]);
          assert a[..k + 1] == [a[0]] + a'[..k] && b[..k + 1] == [b[0]] + b'[..k];
          assert 0 <= k + 1 <= |a| && k + 1 < |b| && a[..k + 1] == b[..k + 1] && (k + 1 == |a| || a[k + 1] < b[k + 1]);
        }
        if k :| 0 <= k <= |a| && k < |b| && a[..k] == b[..k] && (k == |a| || a[k] < b[k]) {
          assert a'[..k - 1] == a[..k][1..] && b'[..k - 1] == b[..k][1..];
          assert 0 <= k - 1 <= |a'| && k - 1 < |b'| && a'[..k - 1] == b'[..k - 1]
                 && (k - 1 == |a'| || a'[k - 1] < b'[k - 1]);
        }
      } else {
        assert a[..0] == b[..0];
        if k :| 0 <= k <= |a| && k < |b| && a[..k] == b[..k] && (k == |a| || a[k] < b[k]) {
          assert k > 0 ==> a[..k][0] == b[..k][0];
        }
      }
    } else {
      assert a[..0] == b[..0];
    }
  }

  predicate Sorted(s: seq<string>) {
    forall i, j :: 0 <= i < j < |s| ==> Before(s[i], s[j])
  }

  lemma SortedDistinct(s: seq<string>)
    requires Sorted(s)
    ensures forall i, j :: 0 <= i < j < |s| ==> s[i] != s[j]
  {
    forall i, j | 0 <= i < j < |s| ensures s[i] != s[j] {
      BeforeTotal(s[i], s[j]);
    }
  }

  function Elements(s: seq<string>): set<string> {
    set x | x in s
  }

  function Insert(x: string, s: seq<string>): (r: seq<string>)
    requires Sorted(s) && x !in s
    ensures Sorted(r) && Elements(r) == Elements(s) + {x}
  {
    if s == [] then [x]
    else if Before(x, s[0]) then
      InsertHead(x, s);
      [x] + s
    else
      BeforeTotal(x, s[0]);
      var rest := Insert(x, s[1..]);
      InsertTail(x, s, rest);
      [s[0]] + rest
  }

  lemma InsertHead(x: string, s: seq<string>)
    requires Sorted(s) && s != [] && Before(x, s[0])
    ensures Sorted([x] + s)
  {
    forall j | 0 <= j < |s| ensures Before(x, s[j]) {
      if j > 0 { BeforeTransitive(x, s[0], s[j]); }
    }
  }

  lemma InsertTail(x: string, s: seq<string>, rest: seq<string>)
    requires Sorted(s) && s != [] && Before(s[0], x)
    requires Sorted(rest) && Elements(rest) == Elements(s[1..]) + {x}
    ensures Sorted([s[0]] + rest) && Elements([s[0]] + rest) == Elements(s) + {x}
  {
    forall j | 0 <= j < |rest| ensures Before(s[0], rest[j]) {
      assert rest[j] in Elements(rest);
      if rest[j] != x {
        assert rest[j] in s[1..];
      }
    }
    hide Before;
    assert s == [s[0]] + s[1..];
    assert Elements(s) == {s[0]} + Elements(s[1..]);
    assert Elements([s[0]] + rest) == {s[0]} + Elements(rest);
  }

  // sort.Strings on a slice without repetitions.
  function SortStrings(s: seq<string>): (r: seq<string>)
    requires forall i, j :: 0 <= i < j < |s| ==> s[i] != s[j]
    ensures Sorted(r) && Elements(r) == Elements(s)
  {
    if s == [] then [] else
      var rest := SortStrings(s[1..]);
      assert s[0] !in Elements(rest);
      assert Elements(s) == Elements(s[1..]) + {s[0]} by { assert s == [s[0]] + s[1..]; }
      Insert(s[0], rest)
  }

  predicate IsLeast(x: string, keys: set<string>) {
    x in keys && forall y :: y in keys && y != x ==> Before(x, y)
  }

  lemma {:induction false} LeastExists(keys: set<string>)
    requires keys != {}
    ensures exists x :: IsLeast(x, keys)
  {
    var x :| x in keys;
    var rest := keys - {x};
    assert forall y :: y in keys ==> y == x || y in rest;
    if rest == {} {
      assert IsLeast(x, keys);
    } else {
      LeastExists(rest);
      var y :| IsLeast(y, rest);
      BeforeTotal(x, y);
      if Before(x, y) {
        forall z | z in rest && z != y ensures Before(x, z) {
          BeforeTransitive(x, y, z);
        }
        assert IsLeast(x, keys);
      } else {
        assert IsLeast(y, keys);
      }
    }
  }

  lemma LeastUnique(keys: set<string>)
    ensures forall x, y :: IsLeast(x, keys) && IsLeast(y, keys) ==> x == y
  {
    forall x, y | IsLeast(x, keys) && IsLeast(y, keys) ensures x == y {
      BeforeTotal(x, y);
    }
  }

  // The keys of a set in increasing order.
  function SortedKeys(keys: set<string>): (r: seq<string>)
    ensures Sorted(r) && Elements(r) == keys
  {
    if keys == {} then [] else
      LeastExists(keys);
      LeastUnique(keys);
      var x :| IsLeast(x, keys);
      var rest := SortedKeys(keys - {x});
      LeastFirst(x, keys, rest);
      [x] + rest
  }

  lemma LeastFirst(x: string, keys: set<string>, rest: seq<string>)
    requires IsLeast(x, keys) && Sorted(rest) && Elements(rest) == keys - {x}
    ensures Sorted([x] + rest) && Elements([x] + rest) == keys
  {
    forall j | 0 <= j < |rest| ensures Before(x, rest[j]) {
      assert rest[j] in Elements(rest);
    }
    hide Before;
    assert Elements([x] + rest) == {x} + Elements(rest);
  }

  lemma {:induction false} SortedUnique(a: seq<string>, b: seq<string>)
    requires Sorted(a) && Sorted(b) && Elements(a) == Elements(b)
    ensures a == b
  {
    assert b == [] || b[0] in Elements(b);
    if a != [] {
      assert a[0] in Elements(b);
      assert b != [];
      assert b[0] in Elements(a);
      var i :| 0 <= i < |b| && b[i] == a[0];
      var j :| 0 <= j < |a| && a[j] == b[0];
      BeforeTotal(a[0], b[0]);
      assert a[0] == b[0];
      assert Elements(a[1..]) == Elements(b[1..]) by {
        SortedTail(a);
        SortedTail(b);
      }
      SortedUnique(a[1..], b[1..]);
      assert a == [a[0]] + a[1..] && b == [b[0]] + b[1..];
    }
  }

  lemma SortedTail(a: seq<string>)
    requires Sorted(a) && a != []
    ensures Elements(a[1..]) == Elements(a) - {a[0]}
  {
    forall k | 1 <= k < |a| ensures a[k] != a[0] {
      BeforeTotal(a[0], a[k]);
    }
    assert a == [a[0]] + a[1..];
  }
}
