/**
 * The paged transfer of a serialised session-data blob between the daemon
 * and a plugin process (SignOn::BlobIOHandler).  The sender writes the blob
 * size and then the blob cut into pages of at most PageSize bytes; the
 * receiver collects fragments until it holds exactly the announced number
 * of bytes, and gives up when an empty fragment arrives too early.
 */
module BlobIO {
  import opened Common

  /** SIGNON_IPC_BUFFER_PAGE_SIZE */
  const PageSize: nat := 16384

  /**
   * The pages a blob is cut into: full pages of PageSize bytes followed by
   * one shorter remainder; an empty blob has no pages at all.
   */
  function Pages(data: seq<Byte>): (pages: seq<seq<Byte>>)
    ensures pages == [] <==> data == []
    decreases |data|
  {
    if data == [] then []
    else if |data| <= PageSize then [data]
    else [data[..PageSize]] + Pages(data[PageSize..])
  }

  /** Joining the pages gives back the blob. */
  lemma {:induction false} PagesConcat(data: seq<Byte>)
    ensures Concat(Pages(data)) == data
    decreases |data|
  {
    if |data| > PageSize {
      var rest := Pages(data[PageSize..]);
      PagesConcat(data[PageSize..]);
      assert ([data[..PageSize]] + rest)[1..] == rest;
      assert data == data[..PageSize] + data[PageSize..];
    }
  }

  /** Every page is non-empty and at most PageSize bytes, and all but the last are full. */
  lemma {:induction false} PagesShape(data: seq<Byte>)
    ensures forall i :: 0 <= i < |Pages(data)| ==> 0 < |Pages(data)[i]| <= PageSize
    ensures forall i :: 0 <= i < |Pages(data)| - 1 ==> |Pages(data)[i]| == PageSize
    decreases |data|
  {
    if |data| > PageSize {
      PagesShape(data[PageSize..]);
      assert Pages(data) == [data[..PageSize]] + Pages(data[PageSize..]);
    }
  }

  /** The first page of a non-empty blob, and the pages after it. */
  lemma PagesFirst(rest: seq<Byte>, len: nat)
    requires rest != [] && len == (if |rest| < PageSize then |rest| else PageSize)
    ensures Pages(rest) == [rest[..len]] + Pages(rest[len..])
  {
    if |rest| <= PageSize {
      assert rest[..len] == rest;
      assert rest[len..] == [];
    }
  }

  /**
   * pageByteArray: reads the blob PageSize bytes at a time from a read
   * position until the end.
   */
  method PageByteArray(data: seq<Byte>) returns (pages: seq<seq<Byte>>)
    ensures pages == Pages(data)
  {
    pages := [];
    var pos := 0;
    ghost var rest := data;
    while pos < |data|
      invariant 0 <= pos <= |data| && rest == data[pos..]
      invariant pages + Pages(rest) == Pages(data)
    {
      var len := if |data| - pos < PageSize then |data| - pos else PageSize;
      var page := data[pos..pos + len];
      assert page == rest[..len];
      PagesFirst(rest, len);
      assert pages + Pages(rest) == (pages + [page]) + Pages(rest[len..]);
      pages := pages + [page];
      pos := pos + len;
      rest := rest[len..];
    }
  }

  /** What the write channel's data stream receives. */
  datatype StreamItem = SizeField(size: int) | PageField(page: seq<Byte>)

  /** The two signals of the receiving side. */
  datatype BlobEvent = ReadError | DataReceived(blob: seq<Byte>)

  function PageFields(pages: seq<seq<Byte>>): seq<StreamItem>
  {
    if pages == [] then []
    else PageFields(pages[..|pages| - 1]) + [PageField(pages[|pages| - 1])]
  }

  function EventsOf(e: Option<BlobEvent>): seq<BlobEvent>
  {
    if e.Some? then [e.value] else []
  }

  /**
   * The receiving side's state: the bytes collected so far, the size
   * announced for the blob, and whether further reads are triggered by
   * the read channel's notifications.
   */
  datatype Reader = Reader(buffer: seq<Byte>, expected: int, notifying: bool)

  /** receiveData before its first read. */
  function StartReceive(r: Reader, expected: int): Reader
  {
    Reader([], expected, if expected > PageSize then true else r.notifying)
  }

  /** readBlob: one fragment read from the channel. */
  function ReadStep(r: Reader, fragment: seq<Byte>): (Reader, Option<BlobEvent>)
  {
    var buffer := r.buffer + fragment;
    if |fragment| == 0 && |buffer| < r.expected then
      (Reader(buffer, r.expected, false), Some(ReadError))
    else if |buffer| == r.expected then
      (Reader(buffer, r.expected, if r.expected > PageSize then false else r.notifying),
       Some(DataReceived(buffer)))
    else
      (Reader(buffer, r.expected, r.notifying), None)
  }

  /**
   * One read: the fragment is appended; an empty fragment short of the
   * announced size, and only that, is a read error that stops
   * notification; reaching exactly the size delivers the whole buffer and
   * stops notification for multi-page blobs; anything else is silent.
   */
  lemma ReadStepOutcome(r: Reader, fragment: seq<Byte>)
    ensures var res := ReadStep(r, fragment);
            res.0.buffer == r.buffer + fragment && res.0.expected == r.expected &&
            (res.1 == Some(ReadError) <==> |fragment| == 0 && |r.buffer| < r.expected) &&
            (res.1 == Some(ReadError) ==> !res.0.notifying) &&
            (res.1.Some? && res.1.value.DataReceived? <==>
               !(|fragment| == 0 && |r.buffer| < r.expected) && |r.buffer + fragment| == r.expected) &&
            (res.1.Some? && res.1.value.DataReceived? ==>
               res.1.value.blob == res.0.buffer &&
               res.0.notifying == (r.notifying && r.expected <= PageSize)) &&
            (res.1.None? ==> res.0.notifying == r.notifying)
  {
  }

  /** Several fragments read one after the other. */
  function ReadAll(r: Reader, fragments: seq<seq<Byte>>): (Reader, seq<BlobEvent>)
    decreases |fragments|
  {
    if fragments == [] then (r, [])
    else
      var step := ReadStep(r, fragments[0]);
      var rest := ReadAll(step.0, fragments[1..]);
      (rest.0, EventsOf(step.1) + rest.1)
  }

  /** After a non-empty fragment that leaves the blob incomplete, reading goes on silently. */
  lemma ReadAllAfterSilent(r: Reader, fragments: seq<seq<Byte>>)
    requires fragments != [] && |fragments[0]| > 0 && |r.buffer| + |fragments[0]| < r.expected
    ensures ReadAll(r, fragments) ==
              ReadAll(Reader(r.buffer + fragments[0], r.expected, r.notifying), fragments[1..])
  {
    var next := Reader(r.buffer + fragments[0], r.expected, r.notifying);
    assert ReadStep(r, fragments[0]) == (next, None);
    assert EventsOf(None) + ReadAll(next, fragments[1..]).1 == ReadAll(next, fragments[1..]).1;
  }

  /** A last, non-empty fragment that completes the blob delivers it. */
  lemma ReadAllCompleting(r: Reader, fragments: seq<seq<Byte>>)
    requires |fragments| == 1 && |fragments[0]| > 0 && |r.buffer| + |fragments[0]| == r.expected
    ensures ReadAll(r, fragments) ==
              (Reader(r.buffer + fragments[0], r.expected, r.notifying && r.expected <= PageSize),
               [DataReceived(r.buffer + fragments[0])])
  {
    var blob := r.buffer + fragments[0];
    assert fragments[1..] == [];
    assert ReadStep(r, fragments[0]) ==
             (Reader(blob, r.expected, r.notifying && r.expected <= PageSize), Some(DataReceived(blob)));
    assert EventsOf(Some(DataReceived(blob))) + [] == [DataReceived(blob)];
  }

  lemma ConcatNonEmpty(parts: seq<seq<Byte>>)
    requires parts != [] && |parts[0]| > 0
    ensures |Concat(parts)| > 0
  {
  }

  /**
   * Non-empty fragments whose lengths add up to exactly what is still
   * missing are collected silently and then delivered as one blob.
   */
  lemma {:induction false} ReadFragmentsDelivers(r: Reader, fragments: seq<seq<Byte>>)
    requires fragments != []
    requires forall i :: 0 <= i < |fragments| ==> |fragments[i]| > 0
    requires r.expected == |r.buffer| + |Concat(fragments)|
    ensures ReadAll(r, fragments).1 == [DataReceived(r.buffer + Concat(fragments))]
    ensures ReadAll(r, fragments).0 ==
              Reader(r.buffer + Concat(fragments), r.expected, r.notifying && r.expected <= PageSize)
    decreases |fragments|
  {
    var first := fragments[0];
    var rest := fragments[1..];
    assert |first| > 0;
    assert Concat(fragments) == first + Concat(rest);
    if rest == [] {
      assert Concat(fragments) == first;
      ReadAllCompleting(r, fragments);
    } else {
      ConcatNonEmpty(rest);
      ReadAllAfterSilent(r, fragments);
      var next := Reader(r.buffer + first, r.expected, r.notifying);
      assert next.buffer + Concat(rest) == r.buffer + Concat(fragments);
      ReadFragmentsDelivers(next, rest);
    }
  }

  /**
   * Round trip of the paged transfer: a receiver told the blob's size and
   * then fed the pages the sender wrote (an empty blob is read as one
   * empty fragment, since no page is written for it) reports exactly that
   * blob, once, and no error; notification is off again for multi-page
   * blobs.
   */
  lemma {:induction false} PagedTransferRoundTrip(r: Reader, data: seq<Byte>)
    ensures var fragments := if data == [] then [[]] else Pages(data);
            var result := ReadAll(StartReceive(r, |data|), fragments);
            result.1 == [DataReceived(data)] &&
            result.0.buffer == data &&
            (|data| > PageSize ==> !result.0.notifying)
  {
    var start := StartReceive(r, |data|);
    if data == [] {
      var fragments: seq<seq<Byte>> := [[]];
      assert fragments[1..] == [];
      assert ReadStep(start, fragments[0]).1 == Some(DataReceived([]));
    } else {
      var pages := Pages(data);
      assert start.buffer == [];
      PagesShape(data);
      PagesConcat(data);
      ReadFragmentsDelivers(start, pages);
      assert [] + Concat(pages) == data;
    }
  }

  class BlobIOHandler {
    /** Whether the handler was given a write channel at all. */
    const hasWriteChannel: bool
    /** The socket notifier used instead of readyRead, when one is set. */
    var notifier: Option<nat>
    var blobBuffer: seq<Byte>
    var blobSize: int
    /** Whether readBlob is connected to the read channel's notifications. */
    var readNotification: bool
    /** Everything written to the write channel. */
    var written: seq<StreamItem>
    /** Signals emitted, oldest first. */
    var events: seq<BlobEvent>

    constructor (hasWriteChannel: bool)
      ensures this.hasWriteChannel == hasWriteChannel
      ensures notifier.None? && blobBuffer == [] && blobSize == -1 && !readNotification
      ensures written == [] && events == []
    {
      this.hasWriteChannel := hasWriteChannel;
      notifier := None;
      blobBuffer := [];
      blobSize := -1;
      readNotification := false;
      written := [];
      events := [];
    }

    function State(): Reader
      reads this
    {
      Reader(blobBuffer, blobSize, readNotification)
    }

    /** A null notifier is ignored. */
    method SetReadChannelSocketNotifier(n: Option<nat>)
      modifies this`notifier
      ensures notifier == (if n.None? then old(notifier) else n)
    {
      if n.Some? {
        notifier := n;
      }
    }

    method SetReadNotificationEnabled(enabled: bool)
      modifies this`readNotification
      ensures readNotification == enabled
    {
      readNotification := enabled;
    }

    /**
     * sendData, given the serialised map: fails without a write channel,
     * otherwise writes the size and then every page in order.
     */
    method SendData(blob: seq<Byte>) returns (ok: bool)
      modifies this`written
      ensures ok == hasWriteChannel
      ensures written == old(written) + (if ok then [SizeField(|blob|)] + PageFields(Pages(blob)) else [])
    {
      if !hasWriteChannel {
        return false;
      }
      written := written + [SizeField(|blob|)];
      var pages := PageByteArray(blob);
      var i := 0;
      while i < |pages|
        invariant 0 <= i <= |pages|
        invariant written == old(written) + [SizeField(|blob|)] + PageFields(pages[..i])
      {
        assert pages[..i + 1][..i] == pages[..i];
        written := written + [PageField(pages[i])];
        i := i + 1;
      }
      assert pages[..|pages|] == pages;
      return true;
    }

    /** readBlob, with the fragment the read channel yields. */
    method ReadBlob(fragment: seq<Byte>)
      modifies this`blobBuffer, this`readNotification, this`events
      ensures State() == ReadStep(old(State()), fragment).0
      ensures events == old(events) + EventsOf(ReadStep(old(State()), fragment).1)
    {
      blobBuffer := blobBuffer + fragment;
      if |fragment| == 0 && |blobBuffer| < blobSize {
        SetReadNotificationEnabled(false);
        events := events + [ReadError];
        return;
      }
      if |blobBuffer| == blobSize {
        if blobSize > PageSize {
          SetReadNotificationEnabled(false);
        }
        events := events + [DataReceived(blobBuffer)];
      }
    }

    /**
     * receiveData: clears the buffer, records the announced size, turns
     * notification on when more than one page is due, and reads at once.
     */
    method ReceiveData(expected: int, fragment: seq<Byte>)
      modifies this`blobBuffer, this`blobSize, this`readNotification, this`events
      ensures State() == ReadStep(StartReceive(old(State()), expected), fragment).0
      ensures events == old(events) + EventsOf(ReadStep(StartReceive(old(State()), expected), fragment).1)
    {
      blobBuffer := [];
      blobSize := expected;
      if blobSize > PageSize {
        SetReadNotificationEnabled(true);
      }
      ReadBlob(fragment);
    }
  }
}
