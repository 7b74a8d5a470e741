/** Pages, page contents and page buffers: the values every other module moves around. */
module Pages {

  const PAGE_SIZE: nat := 4096
  const ADDRESS_LIMIT: nat := 0x1_0000_0000_0000_0000

  newtype byte = x: int | 0 <= x < 256

  /** The bytes of one page. */
  type Content = c: seq<byte> | |c| == PAGE_SIZE witness seq(PAGE_SIZE, _ => 0)

  function ZeroPage(): (c: Content)
    ensures forall i :: 0 <= i < PAGE_SIZE ==> c[i] == 0
  {
    seq(PAGE_SIZE, _ => 0)
  }

  /** A page of a userfault region: the region's descriptor and the page's address in it. */
  datatype PageId = PageId(ufd: int, addr: int)

  /** What `handle_userfault` hands to the handler: a page-aligned 64-bit address, and a
      descriptor small enough to be stored in the low bits of a page address. */
  predicate ValidPage(p: PageId) {
    && 0 < p.ufd < 4096
    && 0 <= p.addr < 0x1_0000_0000_0000_0000
    && p.addr % 4096 == 0
  }

  /** A mapped one-page buffer of the monitor. The identity tells two mappings apart. */
  datatype Buffer = Buffer(id: nat, data: Content)

  datatype Option<+T> = None | Some(value: T)

  ghost predicate NoDup<T>(s: seq<T>) {
    forall i, j :: 0 <= i < j < |s| ==> s[i] != s[j]
  }
}
