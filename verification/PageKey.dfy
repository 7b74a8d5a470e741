/** include/pagehash.h: the key of an LRU node packs a page address and a descriptor. */
module PageKey {
  import opened Pages

  /** `key & PAGE_MASK` on an unsigned 64-bit value. */
  function MaskPage(key: int): (page: int) {
    key - key % 4096
  }

  /** `hash_page_key`. `PAGE_SIZE` is an unsigned long, so a descriptor is converted to an
      unsigned 64-bit value before `%`; the result is the Euclidean remainder. */
  function HashPageKey(key: int, ufd: int): (code: int) {
    (MaskPage(key) + (ufd % 0x1_0000_0000_0000_0000) % 4096) % 0x1_0000_0000_0000_0000
  }

  /** The sum never wraps, and masking the key gives the page back. */
  lemma MaskRecoversPage(key: int, ufd: int)
    requires 0 <= key < ADDRESS_LIMIT
    ensures HashPageKey(key, ufd) == MaskPage(key) + ufd % PAGE_SIZE
    ensures MaskPage(HashPageKey(key, ufd)) == MaskPage(key)
  {
    assert ADDRESS_LIMIT == 0x10_0000_0000_0000 * PAGE_SIZE;
    var q := key / PAGE_SIZE;
    assert MaskPage(key) == q * PAGE_SIZE && q < 0x10_0000_0000_0000;
  }

  /** Two pages share a key exactly when they are the same page and their descriptors agree
      modulo the page size; so keys are unambiguous precisely for descriptors below it. */
  lemma SameKey(k1: int, ufd1: int, k2: int, ufd2: int)
    requires 0 <= k1 < ADDRESS_LIMIT && 0 <= k2 < ADDRESS_LIMIT
    ensures HashPageKey(k1, ufd1) == HashPageKey(k2, ufd2)
       <==> MaskPage(k1) == MaskPage(k2) && ufd1 % PAGE_SIZE == ufd2 % PAGE_SIZE
  {
    MaskRecoversPage(k1, ufd1);
    MaskRecoversPage(k2, ufd2);
  }

  /** A node of the LRU buffer, as eviction sees it. */
  datatype CacheNode = CacheNode(hashcode: int, ufd: int)

  function NodeOf(p: PageId): (n: CacheNode) {
    CacheNode(HashPageKey(p.addr, p.ufd), p.ufd)
  }

  /** The page an eviction targets: the masked hash code in the node's descriptor. */
  function PageOf(n: CacheNode): (p: PageId) {
    PageId(n.ufd, MaskPage(n.hashcode))
  }

  /** Every eviction targets the page that was inserted, a node is never mistaken for the
      empty answer (hash code 0), and distinct pages never share a hash code. */
  lemma KeyRoundTrip(p: PageId, q: PageId)
    requires ValidPage(p) && ValidPage(q)
    ensures PageOf(NodeOf(p)) == p
    ensures NodeOf(p).hashcode != 0
    ensures NodeOf(p).hashcode == NodeOf(q).hashcode <==> p == q
  {
    MaskRecoversPage(p.addr, p.ufd);
    SameKey(p.addr, p.ufd, q.addr, q.ufd);
  }
}
