/** The chained content keys of full prompt pages (src/light_vllm/runtime/kv_cache.py).
    A digest is the term that was hashed, so two digests are equal exactly when the
    hashed inputs are: collision freedom of SHA-256 is the one modelling assumption. */
module PrefixKeys {
  import Collections

  type Token = int

  datatype Digest = Root(epoch: int) | Node(parent: Digest, block: seq<Token>)

  datatype Key = Key(parent: Digest, tokens: seq<Token>, digest: Digest)

  /** All tokens hashed into a digest, from the start of the prompt. */
  function Flatten(d: Digest): seq<Token> {
    match d
    case Root(_) => []
    case Node(parent, block) => Flatten(parent) + block
  }

  function EpochOf(d: Digest): int {
    match d
    case Root(epoch) => epoch
    case Node(parent, _) => EpochOf(parent)
  }

  /** Full pages that may be shared: at least one prompt token is left to compute. */
  function CacheablePages(blockSize: nat, tokens: seq<Token>): (n: nat)
    requires blockSize > 0 && |tokens| > 0
    ensures n * blockSize < |tokens| <= (n + 1) * blockSize
  {
    (|tokens| - 1) / blockSize
  }

  lemma PageBound(blockSize: nat, n: nat, i: nat)
    requires i < n
    ensures 0 <= i * blockSize <= (i + 1) * blockSize <= n * blockSize
  {
    Collections.ScaleMonotone(blockSize, i, i + 1);
    Collections.ScaleMonotone(blockSize, i + 1, n);
  }

  /** The digest after the first n pages of a prompt. */
  function DigestAt(blockSize: nat, tokens: seq<Token>, epoch: int, n: nat): (d: Digest)
    requires n * blockSize <= |tokens|
    ensures EpochOf(d) == epoch
  {
    if n == 0 then Root(epoch) else
      PageBound(blockSize, n, n - 1);
      Node(DigestAt(blockSize, tokens, epoch, n - 1), tokens[(n - 1) * blockSize..n * blockSize])
  }

  lemma {:induction false} DigestHoldsPrefix(blockSize: nat, tokens: seq<Token>, epoch: int, n: nat)
    requires n * blockSize <= |tokens|
    ensures Flatten(DigestAt(blockSize, tokens, epoch, n)) == tokens[..n * blockSize]
  {
    if n > 0 {
      PageBound(blockSize, n, n - 1);
      DigestHoldsPrefix(blockSize, tokens, epoch, n - 1);
      assert tokens[..(n - 1) * blockSize] + tokens[(n - 1) * blockSize..n * blockSize] == tokens[..n * blockSize];
    }
  }

  function KeyAt(blockSize: nat, tokens: seq<Token>, epoch: int, i: nat): Key
    requires (i + 1) * blockSize <= |tokens|
  {
    PageBound(blockSize, i + 1, i);
    Key(DigestAt(blockSize, tokens, epoch, i), tokens[i * blockSize..(i + 1) * blockSize],
        DigestAt(blockSize, tokens, epoch, i + 1))
  }

  /** The keys of the first n pages. */
  function KeyChain(blockSize: nat, tokens: seq<Token>, epoch: int, n: nat): (keys: seq<Key>)
    requires n * blockSize <= |tokens|
    ensures |keys| == n
  {
    if n == 0 then [] else
      PageBound(blockSize, n, n - 1);
      KeyChain(blockSize, tokens, epoch, n - 1) + [KeyAt(blockSize, tokens, epoch, n - 1)]
  }

  function PromptKeys(blockSize: nat, tokens: seq<Token>, epoch: int): (keys: seq<Key>)
    requires blockSize > 0 && |tokens| > 0
  {
    KeyChain(blockSize, tokens, epoch, CacheablePages(blockSize, tokens))
  }

  /** A chain of page keys: key i stands for i+1 full pages of one epoch. */
  ghost predicate IsChain(blockSize: nat, epoch: int, keys: seq<Key>) {
    forall i | 0 <= i < |keys| ::
      |Flatten(keys[i].digest)| == (i + 1) * blockSize && EpochOf(keys[i].digest) == epoch
  }

  /** Page i continues the page before it, or starts the prompt. */
  ghost predicate LinkedAt(keys: seq<Key>, i: nat)
    requires i < |keys|
  {
    && keys[i].digest == Node(keys[i].parent, keys[i].tokens)
    && (if i == 0 then keys[i].parent.Root? else keys[i].parent == keys[i - 1].digest)
  }

  ghost predicate Linked(keys: seq<Key>) {
    forall i | 0 <= i < |keys| :: LinkedAt(keys, i)
  }

  lemma {:induction false} KeyChainAt(blockSize: nat, tokens: seq<Token>, epoch: int, n: nat, i: nat)
    requires n * blockSize <= |tokens| && i < n
    ensures (i + 1) * blockSize <= |tokens|
    ensures KeyChain(blockSize, tokens, epoch, n)[i] == KeyAt(blockSize, tokens, epoch, i)
  {
    PageBound(blockSize, n, i);
    PageBound(blockSize, n, n - 1);
    if i < n - 1 { KeyChainAt(blockSize, tokens, epoch, n - 1, i); }
  }

  /** Key i of a prompt stands for exactly its first i+1 pages. */
  lemma KeyChainHoldsPrefix(blockSize: nat, tokens: seq<Token>, epoch: int, n: nat, i: nat)
    requires n * blockSize <= |tokens| && i < n
    ensures (i + 1) * blockSize <= |tokens|
    ensures Flatten(KeyChain(blockSize, tokens, epoch, n)[i].digest) == tokens[..(i + 1) * blockSize]
    ensures EpochOf(KeyChain(blockSize, tokens, epoch, n)[i].digest) == epoch
  {
    KeyChainAt(blockSize, tokens, epoch, n, i);
    DigestHoldsPrefix(blockSize, tokens, epoch, i + 1);
  }

  lemma KeyChainIsChain(blockSize: nat, tokens: seq<Token>, epoch: int, n: nat)
    requires n * blockSize <= |tokens|
    ensures IsChain(blockSize, epoch, KeyChain(blockSize, tokens, epoch, n))
  {
    forall i | 0 <= i < n
      ensures |Flatten(KeyChain(blockSize, tokens, epoch, n)[i].digest)| == (i + 1) * blockSize
      ensures EpochOf(KeyChain(blockSize, tokens, epoch, n)[i].digest) == epoch
    {
      KeyChainHoldsPrefix(blockSize, tokens, epoch, n, i);
    }
  }

  lemma KeyLinks(blockSize: nat, tokens: seq<Token>, epoch: int, i: nat)
    requires (i + 1) * blockSize <= |tokens|
    ensures var key := KeyAt(blockSize, tokens, epoch, i);
            && key.digest == Node(key.parent, key.tokens)
            && (if i == 0 then key.parent.Root? else
                  i * blockSize <= |tokens| && key.parent == KeyAt(blockSize, tokens, epoch, i - 1).digest)
  {
    PageBound(blockSize, i + 1, i);
    if i > 0 { PageBound(blockSize, i, i - 1); }
  }

  lemma KeyChainIsLinked(blockSize: nat, tokens: seq<Token>, epoch: int, n: nat)
    requires n * blockSize <= |tokens|
    ensures Linked(KeyChain(blockSize, tokens, epoch, n))
  {
    hide KeyAt, KeyChain;
    forall i | 0 <= i < n ensures LinkedAt(KeyChain(blockSize, tokens, epoch, n), i) {
      KeyChainAt(blockSize, tokens, epoch, n, i);
      KeyLinks(blockSize, tokens, epoch, i);
      if i > 0 { KeyChainAt(blockSize, tokens, epoch, n, i - 1); }
    }
  }

  lemma {:induction false} DigestDependsOnPrefix(blockSize: nat, s: seq<Token>, t: seq<Token>, e: int, n: nat)
    requires n * blockSize <= |s| && n * blockSize <= |t| && s[..n * blockSize] == t[..n * blockSize]
    ensures DigestAt(blockSize, s, e, n) == DigestAt(blockSize, t, e, n)
  {
    if n > 0 {
      PageBound(blockSize, n, n - 1);
      var a, b := (n - 1) * blockSize, n * blockSize;
      assert s[..a] == s[..b][..a] == t[..b][..a] == t[..a];
      assert s[a..b] == s[..b][a..] == t[..b][a..] == t[a..b];
      DigestDependsOnPrefix(blockSize, s, t, e, n - 1);
    }
  }

  lemma SamePages(blockSize: nat, m: nat, n: nat)
    requires blockSize > 0 && m * blockSize == n * blockSize
    ensures m == n
  {
    assert (m - n) * blockSize == 0;
  }

  /** Two chain digests are equal exactly when epoch, number of pages and all their tokens agree. */
  lemma DigestStandsForPrefix(blockSize: nat, s: seq<Token>, e: int, m: nat, t: seq<Token>, f: int, n: nat)
    requires blockSize > 0 && m * blockSize <= |s| && n * blockSize <= |t|
    ensures DigestAt(blockSize, s, e, m) == DigestAt(blockSize, t, f, n)
            <==> e == f && m == n && s[..m * blockSize] == t[..n * blockSize]
  {
    DigestHoldsPrefix(blockSize, s, e, m);
    DigestHoldsPrefix(blockSize, t, f, n);
    hide DigestAt, Flatten, EpochOf;
    if DigestAt(blockSize, s, e, m) == DigestAt(blockSize, t, f, n) {
      assert |s[..m * blockSize]| == |t[..n * blockSize]|;
      SamePages(blockSize, m, n);
    }
    if e == f && m == n && s[..m * blockSize] == t[..n * blockSize] { DigestDependsOnPrefix(blockSize, s, t, e, m); }
  }

  lemma PageOfPrefix(blockSize: nat, s: seq<Token>, t: seq<Token>, i: nat)
    requires (i + 1) * blockSize <= |s| && (i + 1) * blockSize <= |t|
    requires s[..(i + 1) * blockSize] == t[..(i + 1) * blockSize]
    ensures 0 <= i * blockSize <= (i + 1) * blockSize && s[..i * blockSize] == t[..i * blockSize]
    ensures s[i * blockSize..(i + 1) * blockSize] == t[i * blockSize..(i + 1) * blockSize]
  {
    PageBound(blockSize, i + 1, i);
    var (a, b) := (i * blockSize, (i + 1) * blockSize);
    assert s[..a] == s[..b][..a] && t[..a] == t[..b][..a];
    assert s[a..b] == s[..b][a..] && t[a..b] == t[..b][a..];
  }

  /** Two page keys are equal exactly when epoch, page number and all tokens so far agree. */
  lemma KeyAgreesWithPrefix(blockSize: nat, s: seq<Token>, e: int, i: nat, t: seq<Token>, f: int, j: nat)
    requires blockSize > 0 && (i + 1) * blockSize <= |s| && (j + 1) * blockSize <= |t|
    ensures KeyAt(blockSize, s, e, i) == KeyAt(blockSize, t, f, j)
            <==> e == f && i == j && s[..(i + 1) * blockSize] == t[..(j + 1) * blockSize]
  {
    hide DigestAt;
    PageBound(blockSize, i + 1, i);
    PageBound(blockSize, j + 1, j);
    DigestStandsForPrefix(blockSize, s, e, i + 1, t, f, j + 1);
    if e == f && i == j && s[..(i + 1) * blockSize] == t[..(j + 1) * blockSize] {
      PageOfPrefix(blockSize, s, t, i);
      DigestStandsForPrefix(blockSize, s, e, i, t, f, i);
    }
  }
}
