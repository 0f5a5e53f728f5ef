/**
  Boost extraction: list the node's invoices, and for every HTLC that carries a
  non-empty custom record under type 7629169 (the podcasting value-for-value record),
  decode that record (base64, then JSON) and collect it. One `try` wraps the whole
  scan, so a single record that fails to decode aborts the scan and nothing is
  published.
*/
module PodcastReader {
  import opened Wrappers
  import opened WebLN

  /** The custom-record type under which boosts are carried. */
  const BoostRecordKey: string := "7629169"

  /** The listing the reader asks for: `reversed: true`, at most 1000 invoices. The order
      in which the provider then lists them is the provider's; boosts follow it. */
  const BoostQuery: ListInvoicesQuery := ListInvoicesQuery(true, 1000)

  /** `htlc.custom_records?.["7629169"]`, kept only when truthy (a non-empty string). */
  function PodcastData(h: Htlc): Option<string> {
    match h.customRecords
    case None => None
    case Some(records) =>
      if BoostRecordKey in records && records[BoostRecordKey] != "" then Some(records[BoostRecordKey])
      else None
  }

  /** What one HTLC contributes to the scan: its record, or nothing. */
  function Contribution(h: Htlc): seq<string> {
    match PodcastData(h)
    case Some(data) => [data]
    case None => []
  }

  /** The records the scan meets among `htlcs`, in HTLC order. */
  function HtlcRecords(htlcs: seq<Htlc>): seq<string> {
    if htlcs == [] then [] else Contribution(htlcs[0]) + HtlcRecords(htlcs[1..])
  }

  /** The records the scan meets, in invoice order and HTLC order within each invoice. */
  function InvoiceRecords(invoices: seq<Invoice>): seq<string> {
    if invoices == [] then [] else HtlcRecords(invoices[0].htlcs) + InvoiceRecords(invoices[1..])
  }

  /** Decodes every record in order; `None` as soon as one fails. */
  function DecodeAll(records: seq<string>, decode: string -> Option<Json>): Option<seq<Json>> {
    if records == [] then Some([])
    else
      match decode(records[0])
      case None => None
      case Some(boost) =>
        match DecodeAll(records[1..], decode)
        case None => None
        case Some(rest) => Some([boost] + rest)
  }

  /** The boosts a listing yields, or `None` when the scan aborts. */
  function Boosts(response: ListInvoicesResponse, decode: string -> Option<Json>): Option<seq<Json>> {
    DecodeAll(InvoiceRecords(response.invoices), decode)
  }

  /** Number of HTLCs among `htlcs` with a non-empty boost record. */
  function CountContributing(htlcs: seq<Htlc>): nat {
    if htlcs == [] then 0
    else (if PodcastData(htlcs[0]).Some? then 1 else 0) + CountContributing(htlcs[1..])
  }

  /** Number of HTLCs, over all invoices, with a non-empty boost record. */
  function CountAllContributing(invoices: seq<Invoice>): nat {
    if invoices == [] then 0
    else CountContributing(invoices[0].htlcs) + CountAllContributing(invoices[1..])
  }

  /** An HTLC contributes exactly when its record map exists and holds a non-empty
      value under the boost key; it then contributes that value. */
  lemma ContributionCharacterized(h: Htlc)
    ensures |Contribution(h)| <= 1
    ensures |Contribution(h)| == 1 <==>
              h.customRecords.Some? && BoostRecordKey in h.customRecords.value &&
              h.customRecords.value[BoostRecordKey] != ""
    ensures |Contribution(h)| == 1 ==> Contribution(h)[0] == h.customRecords.value[BoostRecordKey]
  {
  }

  /** HTLC order is kept: the records of two runs of HTLCs are those of each, in turn. */
  lemma {:induction false} HtlcRecordsAppend(a: seq<Htlc>, b: seq<Htlc>)
    ensures HtlcRecords(a + b) == HtlcRecords(a) + HtlcRecords(b)
    decreases |a|
  {
    if a != [] {
      assert (a + b)[1..] == a[1..] + b;
      HtlcRecordsAppend(a[1..], b);
    } else {
      assert a + b == b;
    }
  }

  /** Invoice order is kept: the records of two runs of invoices are those of each, in turn. */
  lemma {:induction false} InvoiceRecordsAppend(a: seq<Invoice>, b: seq<Invoice>)
    ensures InvoiceRecords(a + b) == InvoiceRecords(a) + InvoiceRecords(b)
    decreases |a|
  {
    if a != [] {
      assert (a + b)[1..] == a[1..] + b;
      InvoiceRecordsAppend(a[1..], b);
    } else {
      assert a + b == b;
    }
  }

  /** A single invoice contributes the records of its HTLCs. */
  lemma InvoiceRecordsSingle(inv: Invoice)
    ensures InvoiceRecords([inv]) == HtlcRecords(inv.htlcs)
  {
  }

  /** A single HTLC contributes its own record, if any. */
  lemma HtlcRecordsSingle(h: Htlc)
    ensures HtlcRecords([h]) == Contribution(h)
  {
  }

  /** Exactly one record per contributing HTLC. */
  lemma {:induction false} HtlcRecordsCount(htlcs: seq<Htlc>)
    ensures |HtlcRecords(htlcs)| == CountContributing(htlcs)
    decreases |htlcs|
  {
    if htlcs != [] {
      HtlcRecordsCount(htlcs[1..]);
    }
  }

  lemma {:induction false} InvoiceRecordsCount(invoices: seq<Invoice>)
    ensures |InvoiceRecords(invoices)| == CountAllContributing(invoices)
    decreases |invoices|
  {
    if invoices != [] {
      HtlcRecordsCount(invoices[0].htlcs);
      InvoiceRecordsCount(invoices[1..]);
    }
  }

  /** The scan succeeds exactly when every record decodes, and then yields one boost per
      record, in the records' order: the decode of that record. */
  lemma {:induction false} DecodeAllCharacterized(records: seq<string>, decode: string -> Option<Json>)
    ensures DecodeAll(records, decode).Some? <==>
              forall k :: 0 <= k < |records| ==> decode(records[k]).Some?
    ensures DecodeAll(records, decode).Some? ==>
              |DecodeAll(records, decode).value| == |records| &&
              forall k :: 0 <= k < |records| ==> DecodeAll(records, decode).value[k] == decode(records[k]).value
    decreases |records|
  {
    if records != [] {
      var tail := records[1..];
      DecodeAllCharacterized(tail, decode);
      assert forall k :: 1 <= k < |records| ==> records[k] == tail[k - 1];
      if decode(records[0]).Some? && DecodeAll(tail, decode).Some? {
        var all := DecodeAll(records, decode).value;
        assert all == [decode(records[0]).value] + DecodeAll(tail, decode).value;
      }
    }
  }

  /** Decoding a concatenation is decoding each part; a failure in either aborts all. */
  lemma {:induction false} DecodeAllAppend(a: seq<string>, b: seq<string>, decode: string -> Option<Json>)
    ensures DecodeAll(a + b, decode) ==
              if DecodeAll(a, decode).Some? && DecodeAll(b, decode).Some?
              then Some(DecodeAll(a, decode).value + DecodeAll(b, decode).value)
              else None
    decreases |a|
  {
    if a == [] {
      assert a + b == b;
      if DecodeAll(b, decode).Some? {
        assert [] + DecodeAll(b, decode).value == DecodeAll(b, decode).value;
      }
    } else {
      assert (a + b)[1..] == a[1..] + b;
      DecodeAllAppend(a[1..], b, decode);
      if decode(a[0]).Some? && DecodeAll(a[1..], decode).Some? && DecodeAll(b, decode).Some? {
        assert [decode(a[0]).value] + (DecodeAll(a[1..], decode).value + DecodeAll(b, decode).value)
            == ([decode(a[0]).value] + DecodeAll(a[1..], decode).value) + DecodeAll(b, decode).value;
      }
    }
  }

  /** On success there is one boost per contributing HTLC, each the decode of its record. */
  lemma BoostsCount(response: ListInvoicesResponse, decode: string -> Option<Json>)
    ensures Boosts(response, decode).Some? ==>
              |Boosts(response, decode).value| == CountAllContributing(response.invoices)
  {
    InvoiceRecordsCount(response.invoices);
    DecodeAllCharacterized(InvoiceRecords(response.invoices), decode);
  }

  /** One step of the inner loop: HTLC `j` either adds nothing, adds the decode of its
      record, or (when that decode fails) makes the records so far fail to decode. */
  lemma ScanStep(done: seq<string>, htlcs: seq<Htlc>, j: nat, decode: string -> Option<Json>, boosts: seq<Json>)
    requires j < |htlcs|
    requires DecodeAll(done + HtlcRecords(htlcs[..j]), decode) == Some(boosts)
    ensures PodcastData(htlcs[j]).None? ==>
              DecodeAll(done + HtlcRecords(htlcs[..j + 1]), decode) == Some(boosts)
    ensures PodcastData(htlcs[j]).Some? && decode(PodcastData(htlcs[j]).value).Some? ==>
              DecodeAll(done + HtlcRecords(htlcs[..j + 1]), decode) ==
              Some(boosts + [decode(PodcastData(htlcs[j]).value).value])
  {
    assert htlcs[..j + 1] == htlcs[..j] + [htlcs[j]];
    HtlcRecordsAppend(htlcs[..j], [htlcs[j]]);
    HtlcRecordsSingle(htlcs[j]);
    var before := done + HtlcRecords(htlcs[..j]);
    assert done + HtlcRecords(htlcs[..j + 1]) == before + Contribution(htlcs[j]);
    if PodcastData(htlcs[j]).Some? {
      var x := PodcastData(htlcs[j]).value;
      assert [x][1..] == [] && Contribution(htlcs[j]) == [x];
      if decode(x).Some? {
        assert DecodeAll([x][1..], decode) == Some([]);
        assert [decode(x).value] + [] == [decode(x).value];
        assert DecodeAll([x], decode) == Some([decode(x).value]);
        DecodeAllAppend(before, [x], decode);
        assert DecodeAll(before + [x], decode) == Some(boosts + [decode(x).value]);
      }
    } else {
      assert before + Contribution(htlcs[j]) == before;
    }
  }

  /** One step of the outer loop: invoice `i` adds the records of its HTLCs. */
  lemma InvoiceStep(invoices: seq<Invoice>, i: nat)
    requires i < |invoices|
    ensures InvoiceRecords(invoices[..i + 1]) == InvoiceRecords(invoices[..i]) + HtlcRecords(invoices[i].htlcs)
  {
    assert invoices[..i + 1] == invoices[..i] + [invoices[i]];
    InvoiceRecordsAppend(invoices[..i], [invoices[i]]);
    InvoiceRecordsSingle(invoices[i]);
  }

  /** The nested scan of `readBoosts`: over invoices, then over each invoice's HTLCs,
      pushing the decode of every truthy boost record; the first failed decode aborts. */
  method CollectBoosts(response: ListInvoicesResponse, decode: string -> Option<Json>)
    returns (result: Option<seq<Json>>)
    ensures result == Boosts(response, decode)
  {
    var invoices := response.invoices;
    var boosts: seq<Json> := [];
    var i := 0;
    while i < |invoices|
      invariant 0 <= i <= |invoices|
      invariant DecodeAll(InvoiceRecords(invoices[..i]), decode) == Some(boosts)
    {
      var htlcs := invoices[i].htlcs;
      ghost var done := InvoiceRecords(invoices[..i]);
      var j := 0;
      assert done + HtlcRecords(htlcs[..0]) == done;
      while j < |htlcs|
        invariant 0 <= j <= |htlcs|
        invariant DecodeAll(done + HtlcRecords(htlcs[..j]), decode) == Some(boosts)
      {
        ScanStep(done, htlcs, j, decode, boosts);
        var podcastData := PodcastData(htlcs[j]);
        if podcastData.Some? {
          var boost := decode(podcastData.value);
          if boost.None? {
            AbortedScanFails(invoices, i, j, decode);
            return None;
          }
          boosts := boosts + [boost.value];
        }
        j := j + 1;
      }
      assert htlcs[..j] == htlcs;
      InvoiceStep(invoices, i);
      i := i + 1;
    }
    assert invoices[..i] == invoices;
    result := Some(boosts);
  }

  /** A failed decode at HTLC `j` of invoice `i` makes the whole listing's scan fail. */
  lemma AbortedScanFails(invoices: seq<Invoice>, i: nat, j: nat, decode: string -> Option<Json>)
    requires i < |invoices| && j < |invoices[i].htlcs|
    requires PodcastData(invoices[i].htlcs[j]).Some?
    requires decode(PodcastData(invoices[i].htlcs[j]).value).None?
    ensures DecodeAll(InvoiceRecords(invoices), decode).None?
  {
    var htlcs := invoices[i].htlcs;
    var x := PodcastData(htlcs[j]).value;
    assert htlcs == htlcs[..j] + ([htlcs[j]] + htlcs[j + 1..]);
    HtlcRecordsAppend(htlcs[..j], [htlcs[j]] + htlcs[j + 1..]);
    HtlcRecordsAppend([htlcs[j]], htlcs[j + 1..]);
    HtlcRecordsSingle(htlcs[j]);
    assert invoices == invoices[..i] + ([invoices[i]] + invoices[i + 1..]);
    InvoiceRecordsAppend(invoices[..i], [invoices[i]] + invoices[i + 1..]);
    InvoiceRecordsAppend([invoices[i]], invoices[i + 1..]);
    InvoiceRecordsSingle(invoices[i]);
    var all := InvoiceRecords(invoices);
    var k := |InvoiceRecords(invoices[..i])| + |HtlcRecords(htlcs[..j])|;
    assert all[k] == x;
    DecodeAllCharacterized(all, decode);
  }

  /** The reader's component state: whether a read is in flight, and the boosts once published. */
  class BoostReader {
    var isLoading: bool
    var boosts: Option<seq<Json>>

    constructor ()
      ensures !isLoading && boosts == None
    {
      isLoading := false;
      boosts := None;
    }

    /** `readBoosts`. Without a provider it throws before touching any state and sends
        nothing (`sent == None`). Otherwise it asks for `BoostQuery`, and given how that
        request settled, publishes the boosts only when the listing arrived and the
        whole scan succeeded; in every case it ends with loading cleared. */
    method ReadBoosts(hasProvider: bool, reply: ListReply, decode: string -> Option<Json>)
      returns (sent: Option<ListInvoicesQuery>)
      modifies this
      ensures !hasProvider ==> sent == None && isLoading == old(isLoading) && boosts == old(boosts)
      ensures hasProvider ==> sent == Some(BoostQuery) && !isLoading
      ensures hasProvider ==>
                boosts == (if reply.Listed? && Boosts(reply.response, decode).Some?
                           then Boosts(reply.response, decode)
                           else old(boosts))
    {
      if !hasProvider {
        return None;
      }
      isLoading := true;
      sent := Some(BoostQuery);
      match reply {
        case Listed(response) =>
          var found := CollectBoosts(response, decode);
          if found.Some? {
            boosts := found;
          }
        case ListFailed(_) =>
      }
      isLoading := false;
    }
  }
}
