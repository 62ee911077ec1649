/**
 The key of an audit row: the hash of a snapshot's fields joined by '|'
 (internal/scheduler/adapters/sqlite/repository.go:155-156). The hash is taken to be
 injective, so the key is the joined text. The text of a payload is hexadecimal, but ids,
 types and owners are joined as they are, so that distinct snapshots can share a key.
 */
module AuditKeys {
  import opened Decimal
  import opened Jobs

  const SEPARATOR := '|'
  const HEX_DIGITS := "0123456789abcdef"

  function Hex(bytes: Bytes): string {
    if bytes == [] then ""
    else
      var code := bytes[0] as int;
      [HEX_DIGITS[code / 16], HEX_DIGITS[code % 16]] + Hex(bytes[1..])
  }

  function StatusText(status: JobStatus): string {
    match status
    case Pending => "pending"
    case Leased => "leased"
    case Running => "running"
    case Completed => "completed"
    case Failed => "failed"
    case Exhausted => "exhausted"
  }

  function ExpiryText(at: int): string {
    if at == NO_TIME then "" else FormatInt(at)
  }

  /** The fields after id and type. */
  function OtherFields(j: JobState): seq<string> {
    [Hex(j.payload), j.aggregateId, j.causationId, StatusText(j.status), Print(j.generation), Print(j.attempts as nat),
     FormatInt(j.scheduledAt), FormatInt(j.nextAttemptAt), j.leaseOwner, ExpiryText(j.leaseExpiresAt)]
  }

  function Fields(j: JobState): (fields: seq<string>)
    ensures |fields| == 12 && fields[0] == j.id && fields[1] == j.jobType && fields[2..] == OtherFields(j)
    ensures forall i :: 2 <= i < 12 ==> fields[i] == OtherFields(j)[i - 2]
  {
    [j.id, j.jobType] + OtherFields(j)
  }

  function Joined(fields: seq<string>): string
    requires fields != []
  {
    if |fields| == 1 then fields[0] else fields[0] + [SEPARATOR] + Joined(fields[1..])
  }

  function Key(j: JobState): string {
    Joined(Fields(j))
  }

  // ----- Splitting at separators -----

  /** The texts between the separators, at least one. */
  function Split(s: string): (pieces: seq<string>)
    ensures pieces != []
  {
    if s == "" then [""]
    else
      var rest := Split(s[1..]);
      if s[0] == SEPARATOR then [""] + rest else [[s[0]] + rest[0]] + rest[1..]
  }

  lemma {:induction false} JoinedSplit(s: string)
    ensures Joined(Split(s)) == s
  {
    if s != "" {
      var rest := Split(s[1..]);
      JoinedSplit(s[1..]);
      assert s == [s[0]] + s[1..];
      if s[0] == SEPARATOR {
        assert ([""] + rest)[1..] == rest;
      } else if |rest| > 1 {
        assert ([[s[0]] + rest[0]] + rest[1..])[1..] == rest[1..];
      }
    }
  }

  lemma {:induction false} SplitSeparated(s: string, t: string)
    ensures Split(s + [SEPARATOR] + t) == Split(s) + Split(t)
  {
    var all := s + [SEPARATOR] + t;
    if s == "" {
      assert all == [SEPARATOR] + t && all[1..] == t;
    } else {
      assert all[0] == s[0] && all[1..] == s[1..] + [SEPARATOR] + t;
      SplitSeparated(s[1..], t);
      FirstCharacter(s[0], Split(s[1..]), Split(t));
    }
  }

  /** The step of splitting, applied to two lists of pieces one after the other. */
  lemma FirstCharacter(c: char, first: seq<string>, second: seq<string>)
    requires first != []
    ensures [""] + (first + second) == ([""] + first) + second
    ensures [[c] + (first + second)[0]] + (first + second)[1..] == ([[c] + first[0]] + first[1..]) + second
  {
  }

  /** All pieces of some fields, in order. */
  function Pieces(fields: seq<string>): seq<string> {
    if fields == [] then [] else Split(fields[0]) + Pieces(fields[1..])
  }

  lemma {:induction false} SplitJoined(fields: seq<string>)
    requires fields != []
    ensures Split(Joined(fields)) == Pieces(fields)
  {
    if |fields| == 1 {
      assert Pieces(fields[1..]) == [];
    } else {
      SplitJoined(fields[1..]);
      SplitSeparated(fields[0], Joined(fields[1..]));
    }
  }

  /** Joined texts are equal exactly when their pieces are. */
  lemma JoinedIff(f: seq<string>, g: seq<string>)
    requires f != [] && g != []
    ensures Joined(f) == Joined(g) <==> Pieces(f) == Pieces(g)
  {
    SplitJoined(f);
    SplitJoined(g);
    JoinedSplit(Joined(f));
    JoinedSplit(Joined(g));
  }

  /** The number of separators in a text. */
  function Separators(s: string): nat {
    |Split(s)| - 1
  }

  lemma {:induction false} SeparatorFree(s: string)
    requires SEPARATOR !in s
    ensures Split(s) == [s]
  {
    if s != "" {
      assert SEPARATOR !in s[1..];
      SeparatorFree(s[1..]);
      assert s == [s[0]] + s[1..];
    }
  }

  lemma {:induction false} PiecesDetermine(f: seq<string>, g: seq<string>)
    requires |f| == |g| && Pieces(f) == Pieces(g)
    requires forall i :: 0 <= i < |f| ==> Separators(f[i]) == Separators(g[i])
    ensures f == g
  {
    if f != [] {
      assert Separators(f[0]) == Separators(g[0]);
      var n := |Split(f[0])|;
      assert Split(f[0]) == Pieces(f)[..n] && Split(g[0]) == Pieces(g)[..n];
      assert Pieces(f[1..]) == Pieces(f)[n..] && Pieces(g[1..]) == Pieces(g)[n..];
      JoinedSplit(f[0]);
      JoinedSplit(g[0]);
      PiecesDetermine(f[1..], g[1..]);
      assert f == [f[0]] + f[1..] && g == [g[0]] + g[1..];
    }
  }

  // ----- The fields determine the snapshot -----

  lemma {:induction false} HexInjective(a: Bytes, b: Bytes)
    requires Hex(a) == Hex(b)
    ensures a == b
  {
    if a != [] && b != [] {
      HexDigitsDiffer(a[0] as int / 16, b[0] as int / 16);
      HexDigitsDiffer(a[0] as int % 16, b[0] as int % 16);
      assert Hex(a)[0] == Hex(b)[0] && Hex(a)[1] == Hex(b)[1];
      assert Hex(a[1..]) == Hex(a)[2..] && Hex(b[1..]) == Hex(b)[2..];
      HexInjective(a[1..], b[1..]);
      assert a == [a[0]] + a[1..] && b == [b[0]] + b[1..];
    }
  }

  lemma HexDigitsDiffer(i: nat, j: nat)
    requires i < 16 && j < 16
    ensures HEX_DIGITS[i] == HEX_DIGITS[j] ==> i == j
  {
  }

  lemma {:induction false} HexIsSeparatorFree(a: Bytes)
    ensures SEPARATOR !in Hex(a)
  {
    if a != [] {
      HexIsSeparatorFree(a[1..]);
    }
  }

  lemma StatusTextInjective(s: JobStatus, t: JobStatus)
    requires StatusText(s) == StatusText(t)
    ensures s == t
  {
    assert StatusText(s)[0] == StatusText(t)[0] && |StatusText(s)| == |StatusText(t)|;
  }

  lemma IntIsSeparatorFree(n: int)
    ensures SEPARATOR !in FormatInt(n) && FormatInt(n) != ""
  {
    PrintRoundTrip(if n < 0 then -n else n);
  }

  lemma ExpiryTextInjective(s: int, t: int)
    requires ExpiryText(s) == ExpiryText(t)
    ensures s == t
  {
    IntIsSeparatorFree(s);
    IntIsSeparatorFree(t);
    if s != NO_TIME && t != NO_TIME {
      FormatIntInjective(s, t);
    }
  }

  lemma PrintInjective(m: nat, n: nat)
    requires Print(m) == Print(n)
    ensures m == n
  {
    PrintRoundTrip(m);
    PrintRoundTrip(n);
  }

  lemma FieldsDetermine(a: JobState, b: JobState)
    requires Fields(a) == Fields(b)
    ensures a == b
  {
    var f, g := Fields(a), Fields(b);
    assert f[0] == g[0] && f[1] == g[1] && f[2] == g[2] && f[3] == g[3] && f[4] == g[4] && f[5] == g[5];
    assert f[6] == g[6] && f[7] == g[7] && f[8] == g[8] && f[9] == g[9] && f[10] == g[10] && f[11] == g[11];
    HexInjective(a.payload, b.payload);
    StatusTextInjective(a.status, b.status);
    PrintInjective(a.generation, b.generation);
    PrintInjective(a.attempts as nat, b.attempts as nat);
    FormatIntInjective(a.scheduledAt, b.scheduledAt);
    FormatIntInjective(a.nextAttemptAt, b.nextAttemptAt);
    ExpiryTextInjective(a.leaseExpiresAt, b.leaseExpiresAt);
  }

  // ----- When two snapshots share a key -----

  /** How many separators the fields contain that are joined as they are. */
  function OwnSeparators(j: JobState): seq<nat> {
    [Separators(j.id), Separators(j.jobType), Separators(j.aggregateId), Separators(j.causationId),
      Separators(j.leaseOwner)]
  }

  lemma NumberHasNone(n: nat)
    ensures Separators(Print(n)) == 0
  {
    PrintRoundTrip(n);
    SeparatorFree(Print(n));
  }

  lemma TimeHasNone(at: int)
    ensures Separators(FormatInt(at)) == 0 && Separators(ExpiryText(at)) == 0
  {
    IntIsSeparatorFree(at);
    SeparatorFree(FormatInt(at));
    SeparatorFree("");
  }

  lemma HexHasNone(bytes: Bytes)
    ensures Separators(Hex(bytes)) == 0
  {
    HexIsSeparatorFree(bytes);
    SeparatorFree(Hex(bytes));
  }

  lemma StatusHasNone(status: JobStatus)
    ensures Separators(StatusText(status)) == 0
  {
    SeparatorFree(StatusText(status));
  }

  lemma OtherFieldsHaveNone(j: JobState)
    ensures forall i :: i in {2, 5, 6, 7, 8, 9, 11} ==> Separators(Fields(j)[i]) == 0
  {
    HexHasNone(j.payload);
    StatusHasNone(j.status);
    NumberHasNone(j.generation);
    NumberHasNone(j.attempts as nat);
    TimeHasNone(j.scheduledAt);
    TimeHasNone(j.nextAttemptAt);
    TimeHasNone(j.leaseExpiresAt);
    forall i | i in {2, 5, 6, 7, 8, 9, 11}
      ensures Separators(Fields(j)[i]) == 0
    {
      assert Fields(j)[i] == OtherFields(j)[i - 2];
    }
  }

  /** Two snapshots share a key exactly when their fields, cut at every separator, give the same pieces. */
  lemma KeysAgreeIff(a: JobState, b: JobState)
    ensures Key(a) == Key(b) <==> Pieces(Fields(a)) == Pieces(Fields(b))
  {
    JoinedIff(Fields(a), Fields(b));
  }

  /**
   Snapshots with one key are the same snapshot exactly when their texts contain equally
   many separators, field by field.
   */
  lemma SharedKeyIff(a: JobState, b: JobState)
    requires Key(a) == Key(b)
    ensures a == b <==> OwnSeparators(a) == OwnSeparators(b)
  {
    if OwnSeparators(a) == OwnSeparators(b) {
      var f, g := Fields(a), Fields(b);
      KeysAgreeIff(a, b);
      OtherFieldsHaveNone(a);
      OtherFieldsHaveNone(b);
      var m, n := OwnSeparators(a), OwnSeparators(b);
      assert m[0] == n[0] && m[1] == n[1] && m[2] == n[2] && m[3] == n[3] && m[4] == n[4];
      forall i | 0 <= i < |f|
        ensures Separators(f[i]) == Separators(g[i])
      {
        assert i in {2, 5, 6, 7, 8, 9, 11} || i in {0, 1, 3, 4, 10};
      }
      PiecesDetermine(f, g);
      FieldsDetermine(a, b);
    }
  }

  /** The separators in the texts that a job is enqueued with. */
  function Counts(j: JobState): seq<nat> {
    [Separators(j.id), Separators(j.jobType), Separators(j.aggregateId), Separators(j.causationId)]
  }

  lemma {:induction false} SameSeparatorsSameLength(f: seq<string>, g: seq<string>)
    requires |f| == |g| && forall i :: 0 <= i < |f| ==> Separators(f[i]) == Separators(g[i])
    ensures |Pieces(f)| == |Pieces(g)|
  {
    if f != [] {
      assert Separators(f[0]) == Separators(g[0]);
      SameSeparatorsSameLength(f[1..], g[1..]);
    }
  }

  lemma {:induction false} LengthGivesTheLast(f: seq<string>, g: seq<string>, k: nat)
    requires |f| == |g| && k < |f| && |Pieces(f)| == |Pieces(g)|
    requires forall i :: 0 <= i < |f| && i != k ==> Separators(f[i]) == Separators(g[i])
    ensures Separators(f[k]) == Separators(g[k])
  {
    if k == 0 {
      SameSeparatorsSameLength(f[1..], g[1..]);
    } else {
      assert Separators(f[0]) == Separators(g[0]);
      LengthGivesTheLast(f[1..], g[1..], k - 1);
    }
  }

  /** Jobs enqueued with equally many separators, field by field, never share a key, whoever leases them. */
  lemma SameCountsSeparate(a: JobState, b: JobState)
    requires Counts(a) == Counts(b) && Key(a) == Key(b)
    ensures a == b
  {
    var f, g, m, n := Fields(a), Fields(b), Counts(a), Counts(b);
    KeysAgreeIff(a, b);
    OtherFieldsHaveNone(a);
    OtherFieldsHaveNone(b);
    assert m[0] == n[0] && m[1] == n[1] && m[2] == n[2] && m[3] == n[3];
    forall i | 0 <= i < |f| && i != 10
      ensures Separators(f[i]) == Separators(g[i])
    {
      assert i in {2, 5, 6, 7, 8, 9, 11} || i in {0, 1, 3, 4};
    }
    LengthGivesTheLast(f, g, 10);
    SharedKeyIff(a, b);
  }

  /**
   Two jobs of one type that share a key: what one has in its id, the other has in its
   aggregate, with the payloads in between.
   */
  lemma ShiftedFieldsShareKey(j: JobState, x: string, u: string, first: Bytes, second: Bytes)
    ensures var a := j.(id := x, payload := first, aggregateId := j.jobType + [SEPARATOR] + Hex(second) + [SEPARATOR] +
            u);
            var b := j.(id := x + [SEPARATOR] + j.jobType + [SEPARATOR] +
                Hex(first), payload := second, aggregateId := u);
            a.id != b.id && Key(a) == Key(b)
  {
    var t, h, k := j.jobType, Hex(first), Hex(second);
    var a := j.(id := x, payload := first, aggregateId := t + [SEPARATOR] + k + [SEPARATOR] + u);
    var b := j.(id := x + [SEPARATOR] + t + [SEPARATOR] + h, payload := second, aggregateId := u);
    assert |a.id| < |b.id|;
    KeyPieces(a);
    KeyPieces(b);
    SplitTwice(t, k, u);
    SplitTwice(x, t, h);
    Regrouped((Split(x) + Split(t)) + Split(h), Split(t), Split(k), Split(u), RestPieces(j));
    KeysAgreeIff(a, b);
  }

  /** The pieces of the fields after the aggregate. */
  function RestPieces(j: JobState): seq<string> {
    Pieces([j.causationId, StatusText(j.status), Print(j.generation), Print(j.attempts as nat),
            FormatInt(j.scheduledAt), FormatInt(j.nextAttemptAt), j.leaseOwner, ExpiryText(j.leaseExpiresAt)])
  }

  lemma KeyPieces(j: JobState)
    ensures Pieces(Fields(j)) ==
            ((Split(j.id) + Split(j.jobType)) + Split(Hex(j.payload))) + Split(j.aggregateId) + RestPieces(j)
  {
    var rest := [j.causationId, StatusText(j.status), Print(j.generation), Print(j.attempts as nat),
                 FormatInt(j.scheduledAt), FormatInt(j.nextAttemptAt), j.leaseOwner, ExpiryText(j.leaseExpiresAt)];
    PiecesByField(j);
    assert OtherFields(j) == [Hex(j.payload), j.aggregateId] + rest;
    TwoThenRest(Hex(j.payload), j.aggregateId, rest);
    Appended(Split(j.id) + Split(j.jobType), Split(Hex(j.payload)), Split(j.aggregateId), Pieces(rest));
  }

  lemma Appended(p: seq<string>, q: seq<string>, r: seq<string>, rest: seq<string>)
    ensures p + (q + r + rest) == (p + q) + r + rest
  {
  }

  lemma Regrouped(p: seq<string>, q: seq<string>, r: seq<string>, s: seq<string>, rest: seq<string>)
    ensures p + ((q + r) + s) + rest == (p + q) + r + s + rest
  {
  }

  lemma SplitTwice(s: string, t: string, u: string)
    ensures Split(s + [SEPARATOR] + t + [SEPARATOR] + u) == (Split(s) + Split(t)) + Split(u)
  {
    SplitSeparated(s + [SEPARATOR] + t, u);
    SplitSeparated(s, t);
  }

  lemma PiecesByField(j: JobState)
    ensures Pieces(Fields(j)) == (Split(j.id) + Split(j.jobType)) + Pieces(OtherFields(j))
  {
    assert Fields(j) == [j.id, j.jobType] + OtherFields(j);
    TwoThenRest(j.id, j.jobType, OtherFields(j));
  }

  lemma TwoThenRest(s: string, t: string, rest: seq<string>)
    ensures Pieces([s, t] + rest) == Split(s) + Split(t) + Pieces(rest)
  {
    var all := [s, t] + rest;
    assert all[1..] == [t] + rest && all[1..][1..] == rest;
    assert Pieces(all[1..]) == Split(t) + Pieces(rest);
  }
}
