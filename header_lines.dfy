/**
 * Serialisation of the header table into the engine's header list
 * (`curl_slist`): one `name: value` line per entry. The name is the UTF-8
 * encoding of the QString key; the line is handed to the engine as a C string,
 * so it ends at its first NUL byte.
 */
module HeaderLines {
  import opened HeaderTable

  const COLON_SPACE: Bytes := [0x3A, 0x20]

  /** UTF-8 encoding of one Unicode scalar value. */
  function EncodeChar(c: char): (r: Bytes)
    ensures 1 <= |r| <= 4
    ensures (c as int < 0x80) == (r == [c as int])
    ensures c as int >= 0x80 ==> forall k :: 0 <= k < |r| ==> r[k] >= 0x80
  {
    var n := c as int;
    if n < 0x80 then [n]
    else if n < 0x800 then [0xC0 + n / 0x40, 0x80 + n % 0x40]
    else if n < 0x1_0000 then [0xE0 + n / 0x1000, 0x80 + (n / 0x40) % 0x40, 0x80 + n % 0x40]
    else [0xF0 + n / 0x4_0000, 0x80 + (n / 0x1000) % 0x40, 0x80 + (n / 0x40) % 0x40, 0x80 + n % 0x40]
  }

  /** `QString::toUtf8`. */
  function Utf8(s: string): (r: Bytes)
    ensures |s| <= |r| <= 4 * |s|
  {
    if s == [] then [] else EncodeChar(s[0]) + Utf8(s[1..])
  }

  /** A name without NUL characters encodes to bytes without a NUL byte. */
  lemma {:induction false} Utf8HasNoNul(s: string)
    requires '\0' !in s
    ensures 0 !in Utf8(s)
  {
    if s != [] {
      assert s[0] != '\0';
      assert '\0' !in s[1..] by { assert forall c :: c in s[1..] ==> c in s; }
      Utf8HasNoNul(s[1..]);
      var head := EncodeChar(s[0]);
      assert 0 !in head by {
        if s[0] as int < 0x80 {
          assert head == [s[0] as int];
        } else {
          assert forall k :: 0 <= k < |head| ==> head[k] >= 0x80;
        }
      }
    }
  }

  /** What `curl_slist_append` copies: the bytes before the first NUL. */
  function CString(b: Bytes): (r: Bytes)
    ensures |r| <= |b| && r == b[..|r|]
    ensures 0 !in r
    ensures |r| < |b| ==> b[|r|] == 0
  {
    if b == [] || b[0] == 0 then [] else [b[0]] + CString(b[1..])
  }

  /** Without a NUL in the bytes the C string is the whole of them. */
  lemma CStringWhole(b: Bytes)
    requires 0 !in b
    ensures CString(b) == b
  {
  }

  /** The header-list line built for one table entry. */
  function HeaderLine(e: Entry): (r: Bytes)
    ensures 0 !in r
    ensures var whole := Utf8(e.name) + COLON_SPACE + e.value;
            |r| <= |whole| && r == whole[..|r|] && (|r| < |whole| ==> whole[|r|] == 0)
  {
    CString(Utf8(e.name) + COLON_SPACE + e.value)
  }

  /** A line is exactly `name + ": " + value` when neither part holds a NUL. */
  lemma HeaderLineExact(e: Entry)
    requires '\0' !in e.name && 0 !in e.value
    ensures HeaderLine(e) == Utf8(e.name) + COLON_SPACE + e.value
  {
    Utf8HasNoNul(e.name);
    var b := Utf8(e.name) + COLON_SPACE + e.value;
    assert 0 !in b by {
      forall k | 0 <= k < |b| ensures b[k] != 0 {
        if k < |Utf8(e.name)| {
          assert b[k] == Utf8(e.name)[k] && Utf8(e.name)[k] in Utf8(e.name);
        } else if k < |Utf8(e.name)| + 2 {
          assert b[k] == COLON_SPACE[k - |Utf8(e.name)|];
        } else {
          assert b[k] == e.value[k - |Utf8(e.name)| - 2] && b[k] in e.value;
        }
      }
    }
    CStringWhole(b);
  }

  /** The header list: the line of every entry, in table (key) order. */
  function Lines(t: Table): (r: seq<Bytes>)
    ensures |r| == |t|
    ensures forall i :: 0 <= i < |t| ==> r[i] == HeaderLine(t[i])
  {
    seq(|t|, i requires 0 <= i < |t| => HeaderLine(t[i]))
  }

  /**
   * The list built from an ordered table has exactly one line per header
   * name: its lines come from entries whose names are pairwise different.
   */
  lemma LinesOnePerHeader(t: Table)
    requires Ordered(t)
    ensures |Lines(t)| == |Names(t)|
    ensures forall i, j :: 0 <= i < j < |t| ==> t[i].name != t[j].name
  {
    OrderedNamesDistinct(t);
  }
}
