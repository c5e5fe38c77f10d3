/** Evidence storage keys: which strings a submission may carry, and where they lead. */
module StorageKeys {
  import opened Results
  import opened Model

  const HEX: string := "0123456789abcdef"

  /** The last `n` hexadecimal digits of `v`. */
  function HexDigits(v: nat, n: nat): (r: string)
    ensures |r| == n
  {
    if n == 0 then "" else HexDigits(v / 16, n - 1) + [HEX[v % 16]]
  }

  /** Thirty-two digits in groups of 8, 4, 4, 4 and 12. */
  function Grouped(h: string): string
    requires |h| == 32
  {
    h[..8] + "-" + h[8..12] + "-" + h[12..16] + "-" + h[16..20] + "-" + h[20..]
  }

  /** The canonical text of a UUID. */
  function FolderName(id: Id): string {
    Grouped(HexDigits(id as nat, 32))
  }

  predicate Contains(s: string, sub: string) {
    exists i | 0 <= i <= |s| :: sub <= s[i..]
  }

  /** The pieces of `s` between slashes; `"a//b"` has an empty one in the middle. */
  function Segments(s: string): (r: seq<string>)
    ensures r != []
  {
    if s == "" then [""]
    else
      var rest := Segments(s[1..]);
      if s[0] == '/' then [""] + rest else [[s[0]] + rest[0]] + rest[1..]
  }

  /** A pure POSIX path drops empty and `.` segments; it keeps `..`. */
  function Named(segments: seq<string>): seq<string> {
    if segments == [] then []
    else if segments[0] == "" || segments[0] == "." then Named(segments[1..])
    else [segments[0]] + Named(segments[1..])
  }

  function Parts(key: string): seq<string> {
    (if "/" <= key then ["/"] else []) + Named(Segments(key))
  }

  /** The check made on every evidence item that carries a storage key. */
  predicate Accepts(folder: string, key: string) {
    var parts := Parts(key);
    && '\\' !in key
    && !("/" <= key)
    && !Contains(key, "://")
    && ".." !in parts
    && |parts| >= 2
    && parts[0] == folder
    && parts[|parts| - 1] != ""
  }

  /** Walking a key from the bucket root, one segment after the other: an empty or `.` segment
      stays, `..` goes up, any other name goes down. `None` once the walk has left the root. */
  function Walk(segments: seq<string>): Option<seq<string>> {
    if segments == [] then Some([])
    else
      var before := Walk(segments[..|segments| - 1]);
      var last := segments[|segments| - 1];
      if before.None? then None
      else if last == "" || last == "." then before
      else if last == ".." then
        (if before.value == [] then None else Some(before.value[..|before.value| - 1]))
      else Some(before.value + [last])
  }

  lemma {:induction false} NamedAppend(segments: seq<string>, last: string)
    ensures Named(segments + [last]) ==
            Named(segments) + (if last == "" || last == "." then [] else [last])
  {
    if segments == [] {
      assert segments + [last] == [last];
    } else {
      assert (segments + [last])[1..] == segments[1..] + [last];
      NamedAppend(segments[1..], last);
    }
  }

  /** Without `..`, the walk goes exactly down the named segments. */
  lemma {:induction false} WalkIsNamed(segments: seq<string>)
    requires ".." !in segments
    ensures Walk(segments) == Some(Named(segments))
  {
    if segments != [] {
      var init, last := segments[..|segments| - 1], segments[|segments| - 1];
      assert segments == init + [last];
      assert last in segments && last != "..";
      assert ".." !in init;
      WalkIsNamed(init);
      NamedAppend(init, last);
      assert Named(init) + [] == Named(init);
      assert Named(segments) == Named(init + [last]);
    }
  }

  lemma {:induction false} NamedMembers(segments: seq<string>)
    ensures forall s :: s in Named(segments) <==> s in segments && s != "" && s != "."
  {
    if segments != [] {
      NamedMembers(segments[1..]);
      assert segments == [segments[0]] + segments[1..];
    }
  }

  lemma {:induction false} NamedPrefix(segments: seq<string>, k: nat)
    requires k <= |segments|
    ensures Named(segments[..k]) <= Named(segments)
  {
    if k < |segments| {
      var init, last := segments[..|segments| - 1], segments[|segments| - 1];
      assert segments == init + [last] && init[..k] == segments[..k];
      NamedPrefix(init, k);
      NamedAppend(init, last);
    } else {
      assert segments[..k] == segments;
    }
  }

  lemma ContainsMeans(s: string)
    ensures !Contains(s, "://") <==>
            forall i | 0 <= i < |s| - 2 :: s[i] == ':' && s[i + 1] == '/' ==> s[i + 2] != '/'
  {
    if i :| 0 <= i < |s| - 2 && s[i] == ':' && s[i + 1] == '/' && s[i + 2] == '/' {
      assert "://" <= s[i..];
    }
    if i :| 0 <= i <= |s| && "://" <= s[i..] {
      assert s[i..][0] == ':' && s[i..][1] == '/' && s[i..][2] == '/';
      assert s[i] == ':' && s[i + 1] == '/' && s[i + 2] == '/';
    }
  }

  /** The pieces with a slash between each two. */
  function Join(segments: seq<string>): string
    requires segments != []
  {
    if |segments| == 1 then segments[0] else segments[0] + "/" + Join(segments[1..])
  }

  /** The segments are the key cut at every slash and nowhere else. */
  lemma {:induction false} SegmentsJoin(key: string)
    ensures Join(Segments(key)) == key
    ensures forall s | s in Segments(key) :: '/' !in s
  {
    if key != "" {
      var rest := Segments(key[1..]);
      SegmentsJoin(key[1..]);
      assert key == [key[0]] + key[1..];
      if key[0] == '/' {
        assert ([""] + rest)[1..] == rest;
      } else {
        JoinLonger(key[0], rest);
        assert rest[0] in rest && forall s | s in rest[1..] :: s in rest;
      }
    }
  }

  lemma JoinLonger(c: char, rest: seq<string>)
    requires rest != []
    ensures Join([[c] + rest[0]] + rest[1..]) == [c] + Join(rest)
  {
    assert ([[c] + rest[0]] + rest[1..])[1..] == rest[1..];
  }

  /** A key is accepted exactly when it is plain text and its walk ends strictly below the folder. */
  lemma AcceptedIffEndsBelow(folder: string, key: string)
    ensures Accepts(folder, key) <==>
            && '\\' !in key && !("/" <= key)
            && (forall i | 0 <= i < |key| - 2 :: key[i] == ':' && key[i + 1] == '/' ==> key[i + 2] != '/')
            && ".." !in Segments(key) && Walk(Segments(key)).Some?
            && var place := Walk(Segments(key)).value; |place| >= 2 && place[0] == folder
  {
    ContainsMeans(key);
    NamedMembers(Segments(key));
    hide Contains, Segments;
    if !("/" <= key) {
      assert Parts(key) == Named(Segments(key));
      if ".." !in Segments(key) {
        WalkIsNamed(Segments(key));
        if Parts(key) != [] {
          assert Parts(key)[|Parts(key)| - 1] in Named(Segments(key));
        }
      }
    }
  }

  /** At no point of the walk does an accepted key leave its folder. */
  lemma NeverLeavesFolder(folder: string, key: string, k: nat)
    requires Accepts(folder, key)
    requires k <= |Segments(key)|
    ensures Walk(Segments(key)[..k]).Some?
    ensures var place := Walk(Segments(key)[..k]).value; place == [] || place[0] == folder
  {
    AcceptedIffEndsBelow(folder, key);
    WalkIsNamed(Segments(key));
    WalkIsNamed(Segments(key)[..k]);
    NamedPrefix(Segments(key), k);
  }

  lemma {:induction false} HexDigitsInjective(v: nat, w: nat, n: nat)
    requires HexDigits(v, n) == HexDigits(w, n)
    ensures v % Power16(n) == w % Power16(n)
  {
    if n > 0 {
      var x, y := HexDigits(v / 16, n - 1), HexDigits(w / 16, n - 1);
      assert x == HexDigits(v, n)[..n - 1] && y == HexDigits(w, n)[..n - 1];
      HexDigitsInjective(v / 16, w / 16, n - 1);
      assert HexDigits(v, n)[n - 1] == HEX[v % 16] && HexDigits(w, n)[n - 1] == HEX[w % 16];
      assert v % 16 == w % 16;
      ModSplit(v, Power16(n - 1));
      ModSplit(w, Power16(n - 1));
    }
  }

  function Power16(n: nat): (p: nat)
    ensures p > 0
  {
    if n == 0 then 1 else 16 * Power16(n - 1)
  }

  lemma ModSplit(v: nat, p: nat)
    requires p > 0
    ensures v % (16 * p) == 16 * ((v / 16) % p) + v % 16
  {
    var q, r := (v / 16) / p, (v / 16) % p;
    assert v == (16 * p) * q + (16 * r + v % 16) by {
      assert v / 16 == p * q + r;
      assert v == 16 * (v / 16) + v % 16;
      assert 16 * (p * q) == (16 * p) * q;
    }
    ModUnique(v, 16 * p, q, 16 * r + v % 16);
  }

  lemma ModUnique(v: int, m: int, q: int, r: int)
    requires m > 0 && v == m * q + r && 0 <= r < m
    ensures v % m == r
  {
    var d := v / m - q;
    assert m * d == r - v % m by {
      assert m * (v / m) + v % m == v;
      assert m * d == m * (v / m) - m * q;
    }
    assert d >= 1 ==> m * d >= m;
    assert d <= -1 ==> m * d <= -m;
  }

  /** The digits can be read back out of the dashed text. */
  lemma Dashed(h: string)
    requires |h| == 32
    ensures var x := Grouped(h);
            |x| == 36 && h == x[..8] + x[9..13] + x[14..18] + x[19..23] + x[24..]
  {
    var x := Grouped(h);
    assert x[..8] == h[..8];
    assert x[9..13] == h[8..12];
    assert x[14..18] == h[12..16];
    assert x[19..23] == h[16..20];
    assert x[24..] == h[20..];
  }

  /** Two assignments never share a folder, so a key belongs to at most one assignment. */
  lemma KeyNamesItsAssignment(a: Id, b: Id, key: string)
    requires Accepts(FolderName(a), key) && Accepts(FolderName(b), key)
    ensures a == b
  {
    var g, h := HexDigits(a as nat, 32), HexDigits(b as nat, 32);
    assert FolderName(a) == FolderName(b);
    Dashed(g);
    Dashed(h);
    HexDigitsInjective(a as nat, b as nat, 32);
    AllOnes();
    ModUnique(a as int, Power16(32), 0, a as int);
    ModUnique(b as int, Power16(32), 0, b as int);
  }

  lemma Power16Add(m: nat, n: nat)
    ensures Power16(m + n) == Power16(m) * Power16(n)
  {
    if m > 0 {
      Power16Add(m - 1, n);
    }
  }

  lemma AllOnes()
    ensures Power16(32) == 0x1_0000_0000_0000_0000_0000_0000_0000_0000
  {
    assert Power16(4) == 0x1_0000;
    Power16Add(4, 4);
    Power16Add(8, 8);
    Power16Add(16, 16);
  }

  // ----- the folder of an assignment --------------------------------------------------------

  predicate IsDigit(c: char) {
    '0' <= c <= '9' || 'a' <= c <= 'f'
  }

  /** The number a text names in base sixteen, dashes left out. */
  function ReadHex(text: string): nat {
    if text == "" then 0
    else
      var before, c := ReadHex(text[..|text| - 1]), text[|text| - 1];
      if '0' <= c <= '9' then 16 * before + (c as nat - '0' as nat)
      else if 'a' <= c <= 'f' then 16 * before + (c as nat - 'a' as nat) + 10
      else before
  }

  lemma HexDigit(d: nat)
    requires d < 16
    ensures IsDigit(HEX[d])
    ensures d < 10 ==> HEX[d] as nat == '0' as nat + d
    ensures d >= 10 ==> HEX[d] as nat == 'a' as nat + d - 10
  {
  }

  lemma {:induction false} DigitsRead(v: nat, n: nat)
    ensures ReadHex(HexDigits(v, n)) == v % Power16(n)
    ensures forall i | 0 <= i < n :: IsDigit(HexDigits(v, n)[i])
  {
    if n > 0 {
      var before, c := HexDigits(v / 16, n - 1), HEX[v % 16];
      DigitsRead(v / 16, n - 1);
      assert (before + [c])[..n - 1] == before;
      HexDigit(v % 16);
      ModSplit(v, Power16(n - 1));
    }
  }

  lemma {:induction false} DashSkipped(a: string, b: string)
    ensures ReadHex(a + "-" + b) == ReadHex(a + b)
  {
    if b == "" {
      assert a + "-" + b == a + "-" && a + b == a && (a + "-")[..|a|] == a;
    } else {
      var init, c := b[..|b| - 1], b[|b| - 1];
      assert (a + "-" + b)[..|a| + |b|] == a + "-" + init && (a + b)[..|a| + |b| - 1] == a + init;
      DashSkipped(a, init);
    }
  }

  lemma Regrouped(a: string, b: string, c: string)
    ensures ReadHex((a + "-" + b) + c) == ReadHex(a + (b + c))
  {
    hide ReadHex;
    assert (a + "-" + b) + c == a + "-" + (b + c);
    DashSkipped(a, b + c);
  }

  lemma DashesSkipped(p: string, q: string, r: string, s: string, t: string)
    ensures ReadHex(p + "-" + q + "-" + r + "-" + s + "-" + t) == ReadHex(p + (q + (r + (s + t))))
  {
    hide ReadHex;
    var two := p + "-" + q;
    var three := two + "-" + r;
    DashSkipped(three + "-" + s, t);
    Regrouped(three, s, t);
    Regrouped(two, r, s + t);
    Regrouped(p, q, r + (s + t));
  }

  lemma GroupedAt(h: string, i: nat)
    requires |h| == 32 && i < 36 && forall j | 0 <= j < 32 :: IsDigit(h[j])
    ensures |Grouped(h)| == 36
    ensures if i in {8, 13, 18, 23} then Grouped(h)[i] == '-' else IsDigit(Grouped(h)[i])
  {
    hide IsDigit;
    var x := Grouped(h);
    assert i < 8 ==> x[i] == h[i];
    assert 8 < i < 13 ==> x[i] == h[i - 1];
    assert 13 < i < 18 ==> x[i] == h[i - 2];
    assert 18 < i < 23 ==> x[i] == h[i - 3];
    assert 23 < i ==> x[i] == h[i - 4];
  }

  lemma GroupedReads(h: string)
    requires |h| == 32
    ensures ReadHex(Grouped(h)) == ReadHex(h)
  {
    hide ReadHex;
    DashesSkipped(h[..8], h[8..12], h[12..16], h[16..20], h[20..]);
    assert h[..8] + (h[8..12] + (h[12..16] + (h[16..20] + h[20..]))) == h;
  }

  lemma Fits(id: Id)
    ensures (id as nat) % Power16(32) == id as nat
  {
    hide Power16;
    AllOnes();
    ModUnique(id as int, Power16(32), 0, id as int);
  }

  /** The folder of an assignment is its id in thirty-two lower-case hexadecimal digits, with dashes
      after the eighth, twelfth, sixteenth and twentieth. */
  lemma FolderIsCanonical(id: Id)
    ensures |FolderName(id)| == 36 && ReadHex(FolderName(id)) == id as nat
    ensures forall i | 0 <= i < 36 ::
              if i in {8, 13, 18, 23} then FolderName(id)[i] == '-' else IsDigit(FolderName(id)[i])
  {
    hide ReadHex, HexDigits, Power16, IsDigit, Grouped;
    var h := HexDigits(id as nat, 32);
    DigitsRead(id as nat, 32);
    GroupedReads(h);
    GroupedAt(h, 0);
    Fits(id);
    forall i | 0 <= i < 36
      ensures if i in {8, 13, 18, 23} then Grouped(h)[i] == '-' else IsDigit(Grouped(h)[i])
    {
      GroupedAt(h, i);
    }
  }
}
