/**
 * File names of the outbox: how an item's name is built, how a reason tag is
 * added and stripped, and the order the directory listings are read in.
 */
module Names {

  // ------------------------------------------------------------ byte order

  /** The order of Go's sort.Strings. */
  predicate LexLess(a: string, b: string)
  {
    b != [] && (a == [] || a[0] < b[0] || (a[0] == b[0] && LexLess(a[1..], b[1..])))
  }

  lemma {:induction false} LexIrreflexive(a: string)
    ensures !LexLess(a, a)
  {
    if a != [] { LexIrreflexive(a[1..]); }
  }

  lemma {:induction false} LexTotal(a: string, b: string)
    ensures a == b || LexLess(a, b) || LexLess(b, a)
  {
    if a != [] && b != [] && a[0] == b[0] {
      LexTotal(a[1..], b[1..]);
      assert a == [a[0]] + a[1..] && b == [b[0]] + b[1..];
    }
  }

  lemma {:induction false} LexTransitive(a: string, b: string, c: string)
    requires LexLess(a, b) && LexLess(b, c)
    ensures LexLess(a, c)
  {
    if a != [] && a[0] == b[0] == c[0] {
      LexTransitive(a[1..], b[1..], c[1..]);
    }
  }

  lemma {:induction false} LexAppend(a: string, b: string, x: string, y: string)
    requires |a| == |b| && LexLess(a, b)
    ensures LexLess(a + x, b + y)
  {
    assert (a + x)[1..] == a[1..] + x && (b + y)[1..] == b[1..] + y;
    if a[0] == b[0] { LexAppend(a[1..], b[1..], x, y); }
  }

  lemma {:induction false} LexSharedPrefix(p: string, x: string, y: string)
    requires LexLess(x, y)
    ensures LexLess(p + x, p + y)
  {
    if p == [] {
      assert p + x == x && p + y == y;
    } else {
      LexSharedPrefix(p[1..], x, y);
      assert (p + x)[1..] == p[1..] + x && (p + y)[1..] == p[1..] + y;
    }
  }

  // -------------------------------------------------------------- listings

  predicate IsLeast(k: string, keys: set<string>)
  {
    k in keys && forall j :: j in keys ==> j == k || LexLess(k, j)
  }

  lemma {:induction false} LeastExists(keys: set<string>)
    requires keys != {}
    ensures exists k :: IsLeast(k, keys)
  {
    var k :| k in keys;
    var rest := keys - {k};
    assert forall j :: j in keys ==> j == k || j in rest;
    if rest == {} {
      assert IsLeast(k, keys);
    } else {
      LeastExists(rest);
      var l :| IsLeast(l, rest);
      LexTotal(k, l);
      if LexLess(k, l) {
        forall j | j in keys ensures j == k || LexLess(k, j) {
          if j != k && j != l { LexTransitive(k, l, j); }
        }
        assert IsLeast(k, keys);
      } else {
        assert IsLeast(l, keys);
      }
    }
  }

  lemma LeastUnique(keys: set<string>)
    ensures forall a, b :: IsLeast(a, keys) && IsLeast(b, keys) ==> a == b
  {
    forall a, b | IsLeast(a, keys) && IsLeast(b, keys) ensures a == b {
      if a != b {
        LexTransitive(a, b, a);
        LexIrreflexive(a);
      }
    }
  }

  /** The names of a directory in the order the outbox reads them: sorted. */
  function Listing(keys: set<string>): (names: seq<string>)
    ensures |names| == |keys|
    ensures forall n :: n in names <==> n in keys
    decreases |keys|
  {
    if keys == {} then []
    else
      LeastExists(keys);
      LeastUnique(keys);
      var k :| IsLeast(k, keys);
      [k] + Listing(keys - {k})
  }

  ghost predicate Sorted(names: seq<string>)
  {
    forall i, j :: 0 <= i < j < |names| ==> LexLess(names[i], names[j])
  }

  lemma {:induction false} ListingSorted(keys: set<string>)
    ensures Sorted(Listing(keys))
    decreases |keys|
  {
    if keys != {} {
      LeastExists(keys);
      LeastUnique(keys);
      var k :| IsLeast(k, keys);
      var rest := Listing(keys - {k});
      ListingSorted(keys - {k});
      forall j | 0 <= j < |rest| ensures LexLess(k, rest[j]) {
        assert rest[j] in rest;
      }
    }
  }

  lemma SortedNoRepeats(names: seq<string>)
    requires Sorted(names)
    ensures forall i, j :: 0 <= i < j < |names| ==> names[i] != names[j]
  {
    forall i, j | 0 <= i < j < |names| ensures names[i] != names[j] {
      LexIrreflexive(names[i]);
    }
  }

  // ------------------------------------------------------------- file names

  function Digit(d: nat): (c: char)
    requires d < 10
    ensures '0' <= c <= '9' && c as int - '0' as int == d
  {
    ('0' as int + d) as char
  }

  predicate Digits(s: string)
  {
    forall i :: 0 <= i < |s| ==> '0' <= s[i] <= '9'
  }

  /** strconv.Itoa on a natural number. */
  function Decimal(n: nat): (s: string)
    ensures s != [] && Digits(s)
  {
    if n < 10 then [Digit(n)] else Decimal(n / 10) + [Digit(n % 10)]
  }

  /** The number a string of digits denotes, leading zeros and all. */
  function Value(s: string): (v: nat)
    requires Digits(s)
  {
    if s == [] then 0
    else 10 * Value(s[..|s| - 1]) + (s[|s| - 1] as int - '0' as int)
  }

  lemma {:induction false} ValueOfDecimal(n: nat)
    ensures Value(Decimal(n)) == n
  {
    var s := Decimal(n);
    if n >= 10 {
      ValueOfDecimal(n / 10);
      assert s[..|s| - 1] == Decimal(n / 10);
    }
  }

  /** fmt's zero padding to a minimum width. */
  function ZeroPad(s: string, width: nat): (p: string)
    requires Digits(s)
    ensures Digits(p) && |p| == if |s| < width then width else |s|
    decreases width - |s|
  {
    if |s| < width then ZeroPad("0" + s, width) else s
  }

  lemma {:induction false} ValueOfLeadingZero(s: string)
    requires Digits(s)
    ensures Digits("0" + s) && Value("0" + s) == Value(s)
  {
    var z := "0" + s;
    if s != [] {
      ValueOfLeadingZero(s[..|s| - 1]);
      assert z[..|z| - 1] == "0" + s[..|s| - 1];
    }
  }

  lemma {:induction false} ValueOfZeroPad(s: string, width: nat)
    requires Digits(s)
    ensures Value(ZeroPad(s, width)) == Value(s)
    decreases width - |s|
  {
    if |s| < width {
      ValueOfLeadingZero(s);
      ValueOfZeroPad("0" + s, width);
    }
  }

  /** The thirteen digit millisecond stamp a name starts with. */
  function Stamp(ms: nat): (s: string)
    ensures Digits(s) && |s| >= 13
  {
    ZeroPad(Decimal(ms), 13)
  }

  /** "<ms>-<id>.json", the name Add publishes an item under. */
  function FileName(ms: nat, id: string): string
  {
    Stamp(ms) + "-" + id + ".json"
  }

  function TrimJson(name: string): string
  {
    if |name| >= 5 && name[|name| - 5..] == ".json" then name[..|name| - 5] else name
  }

  /** Everything before the first occurrence of c, or the whole string. */
  function UpTo(s: string, c: char): (r: string)
    ensures c !in r
    ensures r <= s
    ensures |r| < |s| ==> s[|r|] == c
  {
    if s == [] || s[0] == c then [] else [s[0]] + UpTo(s[1..], c)
  }

  /** Everything after the first occurrence of c; empty when there is none. */
  function After(s: string, c: char): string
  {
    var head := UpTo(s, c);
    if |head| < |s| then s[|head| + 1..] else []
  }

  /** baseName: strips any reason tag. */
  function BaseName(name: string): string
  {
    UpTo(TrimJson(name), '.') + ".json"
  }

  /** The name moveOut gives a file it relocates. */
  function MovedName(name: string, tag: string): string
  {
    var base := BaseName(name);
    if tag == "" then base else TrimJson(base) + "." + tag + ".json"
  }

  /** The id a name spells: what stands between the first dash and the first dot. */
  ghost function IdOf(name: string): string
  {
    After(UpTo(TrimJson(name), '.'), '-')
  }

  lemma TrimJsonOf(stem: string)
    ensures TrimJson(stem + ".json") == stem
  {
    var n := stem + ".json";
    assert n[|n| - 5..] == ".json" && n[..|n| - 5] == stem;
  }

  lemma {:induction false} UpToAppend(a: string, b: string, c: char)
    ensures c !in a ==> UpTo(a + b, c) == a + UpTo(b, c)
    ensures c in a ==> UpTo(a + b, c) == UpTo(a, c)
  {
    if a == [] {
      assert a + b == b;
    } else {
      assert (a + b)[1..] == a[1..] + b && a == [a[0]] + a[1..];
      UpToAppend(a[1..], b, c);
    }
  }

  lemma UpToSelf(a: string, c: char)
    requires c !in a
    ensures UpTo(a, c) == a
  {
    UpToAppend(a, "", c);
    assert a + "" == a;
  }

  /** Moving a file, however it is tagged, keeps its base name and the id its name spells. */
  lemma MoveKeepsBaseName(name: string, tag: string)
    ensures BaseName(MovedName(name, tag)) == BaseName(name) == BaseName(BaseName(name))
    ensures IdOf(MovedName(name, tag)) == IdOf(name) == IdOf(BaseName(name))
  {
    var stem := UpTo(TrimJson(name), '.');
    TrimJsonOf(stem);
    UpToSelf(stem, '.');
    if tag != "" {
      var tagged := stem + "." + tag;
      TrimJsonOf(tagged);
      assert tagged == stem + ("." + tag);
      UpToAppend(stem, "." + tag, '.');
      assert stem + UpTo("." + tag, '.') == stem;
    }
  }

  /** What follows the first c of a string that starts with head and c. */
  lemma AfterFirst(head: string, c: char, rest: string)
    requires c !in head
    ensures After(head + [c] + rest, c) == rest
  {
    var s := head + [c] + rest;
    assert s == head + ([c] + rest);
    UpToAppend(head, [c] + rest, c);
    assert UpTo([c] + rest, c) == [];
    assert UpTo(s, c) == head + [] == head;
    assert s[|head| + 1..] == rest;
  }

  lemma StampHasNo(ms: nat, c: char)
    requires c == '.' || c == '-'
    ensures c !in Stamp(ms)
  {
    assert Digits(Stamp(ms));
  }

  /** A published name spells its own id exactly when the id has no dot. */
  lemma NameSpellsId(ms: nat, id: string)
    ensures IdOf(FileName(ms, id)) == UpTo(id, '.')
    ensures IdOf(FileName(ms, id)) == id <==> '.' !in id
    ensures '.' !in id ==> BaseName(FileName(ms, id)) == FileName(ms, id)
  {
    var pre := Stamp(ms) + "-";
    StampHasNo(ms, '.');
    StampHasNo(ms, '-');
    TrimJsonOf(pre + id);
    UpToAppend(pre, id, '.');
    AfterFirst(Stamp(ms), '-', UpTo(id, '.'));
    if '.' !in id { UpToSelf(id, '.'); }
  }

  lemma StampDistinct(ms: nat, ms': nat)
    requires Stamp(ms) == Stamp(ms')
    ensures ms == ms'
  {
    ValueOfDecimal(ms);
    ValueOfDecimal(ms');
    ValueOfZeroPad(Decimal(ms), 13);
    ValueOfZeroPad(Decimal(ms'), 13);
  }

  /** The stem a published file keeps through every move. */
  lemma StemOf(ms: nat, id: string)
    ensures UpTo(TrimJson(FileName(ms, id)), '.') == Stamp(ms) + "-" + UpTo(id, '.')
  {
    var pre := Stamp(ms) + "-";
    StampHasNo(ms, '.');
    TrimJsonOf(pre + id);
    UpToAppend(pre, id, '.');
  }

  lemma StemsAgree(ms: nat, ms': nat, u: string, u': string)
    requires Stamp(ms) + "-" + u == Stamp(ms') + "-" + u'
    ensures ms == ms' && u == u'
  {
    StampHasNo(ms, '-');
    StampHasNo(ms', '-');
    var one, other := Stamp(ms), Stamp(ms');
    assert one + "-" + u == one + ("-" + u) && other + "-" + u' == other + ("-" + u');
    UpToAppend(one, "-" + u, '-');
    UpToAppend(other, "-" + u', '-');
    assert UpTo("-" + u, '-') == [] && UpTo("-" + u', '-') == [];
    assert one == one + [] == other + [] == other;
    StampDistinct(ms, ms');
    assert u == (one + "-" + u)[|one| + 1..] == (other + "-" + u')[|other| + 1..] == u';
  }

  /**
   * Two published files are moved onto one name exactly when they were published in the same
   * millisecond with ids that agree up to the first dot. Ids without a dot never collide.
   */
  lemma MovedCollideExactly(ms: nat, id: string, ms': nat, id': string, tag: string)
    ensures MovedName(FileName(ms, id), tag) == MovedName(FileName(ms', id'), tag)
       <==> ms == ms' && UpTo(id, '.') == UpTo(id', '.')
  {
    var stem, stem' := Stamp(ms) + "-" + UpTo(id, '.'), Stamp(ms') + "-" + UpTo(id', '.');
    StemOf(ms, id);
    StemOf(ms', id');
    TrimJsonOf(stem);
    TrimJsonOf(stem');
    hide Stamp, UpTo, TrimJson;
    var ending := if tag == "" then ".json" else "." + tag + ".json";
    assert MovedName(FileName(ms, id), tag) == stem + ending;
    assert MovedName(FileName(ms', id'), tag) == stem' + ending;
    if stem + ending == stem' + ending {
      assert |stem| == |stem'|;
      assert stem == (stem + ending)[..|stem|] == (stem' + ending)[..|stem'|] == stem';
      StemsAgree(ms, ms', UpTo(id, '.'), UpTo(id', '.'));
    }
  }

  // ---------------------------------------------------------- chronological

  lemma {:induction false} SameLengthSameValue(a: string, b: string)
    requires Digits(a) && Digits(b) && |a| == |b| && Value(a) == Value(b)
    ensures a == b
  {
    if a != [] {
      var a', b' := a[..|a| - 1], b[..|b| - 1];
      SameLengthSameValue(a', b');
      assert a == a' + [a[|a| - 1]] && b == b' + [b[|b| - 1]];
    }
  }

  lemma {:induction false} SmallerValueSortsFirst(a: string, b: string)
    requires Digits(a) && Digits(b) && |a| == |b| && Value(a) < Value(b)
    ensures LexLess(a, b)
  {
    var a', b' := a[..|a| - 1], b[..|b| - 1];
    var x, y := [a[|a| - 1]], [b[|b| - 1]];
    assert a == a' + x && b == b' + y;
    if Value(a') < Value(b') {
      SmallerValueSortsFirst(a', b');
      LexAppend(a', b', x, y);
    } else {
      SameLengthSameValue(a', b');
      LexSharedPrefix(a', x, y);
    }
  }

  lemma {:induction false} DecimalLength(n: nat, width: nat, bound: nat)
    requires width >= 1 && n < bound && bound == Power10(width)
    ensures |Decimal(n)| <= width
  {
    if n >= 10 {
      DecimalLength(n / 10, width - 1, Power10(width - 1));
    }
  }

  ghost function Power10(k: nat): (p: nat)
    ensures p >= 1
  {
    if k == 0 then 1 else 10 * Power10(k - 1)
  }

  lemma StampSpells(ms: nat)
    requires ms < Power10(13)
    ensures |Stamp(ms)| == 13 && Value(Stamp(ms)) == ms
  {
    hide Power10, Decimal, Value, ZeroPad;
    DecimalLength(ms, 13, Power10(13));
    ValueOfDecimal(ms);
    ValueOfZeroPad(Decimal(ms), 13);
  }

  /** Until the year 2286 the listing is oldest first: an earlier stamp sorts earlier, whatever the ids. */
  lemma NamesSortByTime(ms: nat, id: string, ms': nat, id': string)
    requires ms < ms' < Power10(13)
    ensures LexLess(FileName(ms, id), FileName(ms', id'))
  {
    hide Power10, Stamp, Value, LexLess;
    StampSpells(ms);
    StampSpells(ms');
    SmallerValueSortsFirst(Stamp(ms), Stamp(ms'));
    LexAppend(Stamp(ms), Stamp(ms'), "-" + id + ".json", "-" + id' + ".json");
    assert FileName(ms, id) == Stamp(ms) + ("-" + id + ".json");
    assert FileName(ms', id') == Stamp(ms') + ("-" + id' + ".json");
  }
}
