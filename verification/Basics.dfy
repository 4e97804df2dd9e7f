/**
 Bytes, texts and the small vocabulary shared by every component of the model.

 A `Text` is the UTF-8 byte sequence of a Rust string: its length and its
 ordering are then exactly those of `str`.
 */
module Basics {

  type byte = b: int | 0 <= b < 256

  type Text = seq<byte>

  const U32: nat := 0x1_0000_0000
  const U64: nat := 0x1_0000_0000_0000_0000

  const SLASH: byte := 0x2F
  const PERCENT: byte := 0x25
  const COLON: byte := 0x3A
  const BAR: byte := 0x7C
  const DASH: byte := 0x2D
  const COMMA: byte := 0x2C

  datatype Option<+T> = None | Some(value: T) {
    function GetOr(default: T): T {
      match this
      case Some(v) => v
      case None => default
    }
  }

  /** The code of the source's ApiError, one constructor per code the model can return. */
  datatype ApiError =
    | InvalidNamespace | InvalidPath | InvalidPrefix | InvalidBucket | InvalidObjectKey
    | InvalidCursor | InvalidRange | UnsupportedPreference | MissingSelector
    | EmptyChunkRefs | ZeroSizedManifest | MissingSuite | MissingWrappedKeys
    | ManifestTenantMismatch | ManifestKeyPolicyMismatch | ManifestProfileMismatch | ManifestVisibilityMismatch
    | ChunkCidMismatch | UploadSessionNotFound | UploadSessionCommitted
    | UnknownChunkIndex | ChunkDescriptorMismatch | ChunkLengthMismatch | ChunkTooLarge
    | ManifestCidMismatch | MissingChunk | ManifestNotFound
    | PathNotBound | PathTombstoned | RevisionConflict | PreconditionRequired
    | SignedRecordInvalid | SignedRecordMismatch | MissingNamespace | MissingPath | MissingTargetCid
    | HardDeleteRequiresAdmin | TenantScopeMismatch | CursorExpired
    | Denied(reason: Denial)
    | ObjectTooLarge | BucketNotFound | ObjectNotFound | EmptyObject
    | OperationNotAllowed | TenantMismatch | ScopeMismatch | LegalHoldActive | LockConflict | CidBindingMismatch
    | MultipartNotFound

  /** hsp-auth's DenialReason. */
  datatype Denial =
    | ExpiredToken | NotYetValid | WrongTenant | ScopeNotGranted | MissingChannelBinding
    | MissingKeyPolicyId | MissingEncryptionProfileId | MissingJti
    | KeyPolicyMismatch | VisibilityMismatch | PathScopeMismatch | NamespaceScopeMismatch
    | TooLarge | StorageClassMismatch | ReplayDetected

  datatype Result<+T> = Ok(value: T) | Err(error: ApiError)

  /** The bytes of an ASCII literal. */
  function Ascii(s: string): (t: Text)
    ensures |t| == |s|
    ensures forall i :: 0 <= i < |s| ==> t[i] == (s[i] as int) % 256
  {
    seq(|s|, i requires 0 <= i < |s| => (s[i] as int) % 256)
  }

  predicate IsAscii(t: Text) {
    forall i :: 0 <= i < |t| ==> t[i] < 128
  }

  function Min(a: int, b: int): int { if a <= b then a else b }

  function Max(a: int, b: int): int { if a <= b then b else a }

  /** u64 saturating arithmetic. */
  function SatAdd(a: nat, b: nat): nat { if a + b < U64 then a + b else U64 - 1 }

  function SatSub(a: nat, b: nat): nat { if a >= b then a - b else 0 }

  /** A content hash; the source's is SHA-256 in base32 behind a "sha256-" prefix. */
  type Hash = Text -> Text

  /** Collision freedom, the one hypothesis made about the hash. */
  ghost predicate CollisionFree(h: Hash) {
    forall x: Text, y: Text :: h(x) == h(y) ==> x == y
  }
}

/**
 Bytewise lexicographic order, which is both the order of `str` and the order
 of a BTreeMap's keys, and the ascending enumeration of a finite set of texts.
 */
module TextOrder {
  import opened Basics

  predicate Less(a: Text, b: Text) {
    b != [] && (a == [] || a[0] < b[0] || (a[0] == b[0] && Less(a[1..], b[1..])))
  }

  lemma {:induction false} LessIrreflexive(a: Text)
    ensures !Less(a, a)
  {
    if a != [] { LessIrreflexive(a[1..]); }
  }

  lemma {:induction false} LessTransitive(a: Text, b: Text, c: Text)
    requires Less(a, b) && Less(b, c)
    ensures Less(a, c)
  {
    if a != [] && a[0] == b[0] == c[0] {
      LessTransitive(a[1..], b[1..], c[1..]);
    }
  }

  lemma {:induction false} LessTotal(a: Text, b: Text)
    ensures a == b || Less(a, b) || Less(b, a)
  {
    if a != [] && b != [] && a[0] == b[0] {
      LessTotal(a[1..], b[1..]);
      assert a == [a[0]] + a[1..] && b == [b[0]] + b[1..];
    }
  }

  ghost predicate Ascending(ts: seq<Text>) {
    forall i, j :: 0 <= i < j < |ts| ==> Less(ts[i], ts[j])
  }

  lemma LeastExists(s: set<Text>) returns (least: Text)
    requires s != {}
    ensures IsLeast(least, s)
    decreases |s|
  {
    var t :| t in s;
    if s == {t} {
      least := t;
    } else {
      var l := LeastExists(s - {t});
      LessTotal(l, t);
      if Less(l, t) {
        least := l;
      } else {
        least := t;
        forall u | u in s && u != t ensures Less(t, u) {
          if u != l { LessTransitive(t, l, u); }
        }
      }
    }
  }

  predicate IsLeast(m: Text, s: set<Text>) {
    m in s && forall t :: t in s && t != m ==> Less(m, t)
  }

  lemma LeastUnique(s: set<Text>)
    requires s != {}
    ensures exists m :: m in s && IsLeast(m, s)
    ensures forall m, n :: IsLeast(m, s) && IsLeast(n, s) ==> m == n
  {
    var m := LeastExists(s);
    assert IsLeast(m, s);
    forall x, y | IsLeast(x, s) && IsLeast(y, s) ensures x == y {
      if x != y {
        LessTransitive(x, y, x);
        LessIrreflexive(x);
      }
    }
  }

  function Least(s: set<Text>): (least: Text)
    requires s != {}
    ensures IsLeast(least, s)
  {
    LeastUnique(s);
    var m :| m in s && IsLeast(m, s);
    m
  }

  /** The elements of s in ascending order: how a BTreeMap enumerates its keys. */
  function Sorted(s: set<Text>): (ts: seq<Text>)
    ensures Ascending(ts)
    ensures forall t :: t in ts <==> t in s
    decreases |s|
  {
    if s == {} then [] else
      var m := Least(s);
      var rest := Sorted(s - {m});
      assert forall k :: 0 <= k < |rest| ==> rest[k] in rest;
      [m] + rest
  }

  lemma {:induction false} SortedLength(s: set<Text>)
    ensures |Sorted(s)| == |s|
    decreases |s|
  {
    if s != {} { SortedLength(s - {Least(s)}); }
  }
}
