/** Text the driver formats into names and lists: decimal numbers, the names of
    replicas, and separated lists. */
module Text {

  /** `format!("{}", n)` for an unsigned number. */
  function Decimal(n: nat): (s: string)
    ensures |s| > 0 && forall c | c in s :: '0' <= c <= '9'
  {
    var last := [('0' as int + n % 10) as char];
    if n < 10 then last else Decimal(n / 10) + last
  }

  /** The number a run of digits stands for. */
  function Number(s: string): int {
    if s == [] then 0 else 10 * Number(s[..|s| - 1]) + (s[|s| - 1] as int - '0' as int)
  }

  lemma {:induction false} DecimalReadsBack(n: nat)
    ensures Number(Decimal(n)) == n
  {
    if n < 10 {
      assert Decimal(n)[..0] == [];
    } else {
      DecimalReadsBack(n / 10);
      var s := Decimal(n);
      assert s[..|s| - 1] == Decimal(n / 10);
    }
  }

  lemma DecimalInjective(m: nat, n: nat)
    requires Decimal(m) == Decimal(n)
    ensures m == n
  {
    DecimalReadsBack(m);
    DecimalReadsBack(n);
  }

  /** The name `{uid}-replica-{index}` of a replica DataPod. */
  function ReplicaName(uid: string, index: nat): string {
    uid + "-replica-" + Decimal(index)
  }

  /** The path `/replica-{index}` of a replica DataPod. */
  function ReplicaPath(index: nat): string {
    "/replica-" + Decimal(index)
  }

  /** The volume name `replica-{index}` inside a sync Pod. */
  function VolumeName(index: nat): string {
    "replica-" + Decimal(index)
  }

  /** What names and paths look like: a fixed beginning, and the index in decimal digits. */
  lemma NamesReadBack(uid: string, index: nat)
    ensures var name := ReplicaName(uid, index);
            && |name| > |uid| + 9
            && name[..|uid|] == uid && name[|uid|..|uid| + 9] == "-replica-" && Number(name[|uid| + 9..]) == index
    ensures var path := ReplicaPath(index); |path| > 9 && path[..9] == "/replica-" && Number(path[9..]) == index
    ensures var name := VolumeName(index); |name| > 8 && name[..8] == "replica-" && Number(name[8..]) == index
  {
    DecimalReadsBack(index);
    assert ReplicaName(uid, index)[|uid| + 9..] == Decimal(index);
    assert ReplicaPath(index)[9..] == Decimal(index) && VolumeName(index)[8..] == Decimal(index);
  }

  /** When `x` holds no dash, the last dash of `a-x` is the one right after `a`. */
  lemma LastDash(a: string, x: string)
    requires '-' !in x
    ensures (a + "-" + x)[|a|] == '-'
    ensures forall k | |a| < k < |a + "-" + x| :: (a + "-" + x)[k] != '-'
  {
    forall k | |a| < k < |a + "-" + x| ensures (a + "-" + x)[k] != '-' {
      assert (a + "-" + x)[k] == x[k - |a| - 1];
    }
  }

  /** Equal texts split alike at their last dash. */
  lemma LastDashSplits(a: string, x: string, b: string, y: string)
    requires a + "-" + x == b + "-" + y
    requires '-' !in x && '-' !in y
    ensures a == b && x == y
  {
    LastDash(a, x);
    LastDash(b, y);
    assert a == (a + "-" + x)[..|a|] && b == (b + "-" + y)[..|b|];
    assert x == (a + "-" + x)[|a| + 1..] && y == (b + "-" + y)[|b| + 1..];
  }

  /** Two replicas of any two replica sets share a name only if they are the same replica
      of the same set, whatever the uids look like. */
  lemma ReplicaNamesDistinct(uid: string, i: nat, uid': string, j: nat)
    requires ReplicaName(uid, i) == ReplicaName(uid', j)
    ensures uid == uid' && i == j
  {
    assert uid + "-replica-" == (uid + "-replica") + "-";
    assert uid' + "-replica-" == (uid' + "-replica") + "-";
    LastDashSplits(uid + "-replica", Decimal(i), uid' + "-replica", Decimal(j));
    assert uid == (uid + "-replica")[..|uid + "-replica"| - 8];
    assert uid' == (uid' + "-replica")[..|uid' + "-replica"| - 8];
    DecimalInjective(i, j);
  }

  lemma VolumeNamesDistinct(i: nat, j: nat)
    requires VolumeName(i) == VolumeName(j)
    ensures i == j
  {
    assert Decimal(i) == VolumeName(i)[8..];
    assert Decimal(j) == VolumeName(j)[8..];
    DecimalInjective(i, j);
  }

  lemma ReplicaPathsDistinct(i: nat, j: nat)
    requires ReplicaPath(i) == ReplicaPath(j)
    ensures i == j
  {
    assert Decimal(i) == ReplicaPath(i)[9..];
    assert Decimal(j) == ReplicaPath(j)[9..];
    DecimalInjective(i, j);
  }

  /** `parts.join(sep)`. */
  function Join(parts: seq<string>, sep: char): string {
    if parts == [] then ""
    else if |parts| == 1 then parts[0]
    else parts[0] + [sep] + Join(parts[1..], sep)
  }

  /** The fields of a text cut at every separator; the empty text is one empty field. */
  function Split(s: string, sep: char): (parts: seq<string>)
    ensures |parts| > 0
    ensures forall p | p in parts :: sep !in p
  {
    if s == [] then [""]
    else
      var rest := Split(s[1..], sep);
      if s[0] == sep then [""] + rest else [[s[0]] + rest[0]] + rest[1..]
  }

  lemma {:induction false} SplitAfterField(field: string, rest: string, sep: char)
    requires sep !in field
    ensures Split(field + [sep] + rest, sep) == [field] + Split(rest, sep)
    ensures Split(field, sep) == [field]
  {
    if field != [] {
      SplitAfterField(field[1..], rest, sep);
      assert (field + [sep] + rest)[1..] == field[1..] + [sep] + rest;
      assert [field[0]] + field[1..] == field;
    } else {
      assert ([] + [sep] + rest)[1..] == rest;
    }
  }

  /** Joining and cutting at the same separator gives the fields back, in order. */
  lemma {:induction false} SplitUndoesJoin(parts: seq<string>, sep: char)
    requires |parts| > 0
    requires forall p | p in parts :: sep !in p
    ensures Split(Join(parts, sep), sep) == parts
  {
    if |parts| == 1 {
      SplitAfterField(parts[0], "", sep);
    } else {
      SplitUndoesJoin(parts[1..], sep);
      SplitAfterField(parts[0], Join(parts[1..], sep), sep);
    }
  }
}
