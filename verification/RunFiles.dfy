/** A run from the writer's records to the reader's. */
module RunFiles {
  import opened Widths
  import opened Texts
  import opened Records
  import opened Outcomes
  import opened RunCodec
  import opened RunReader
  import RunRoundTrip
  import RunStream

  /** Encodes records, and reads what was written with Next until it reports the end:
      exactly those records, for every list without a record over the limit. */
  method WriteAndRead(h: Hash, records: seq<Record>, expected: int) returns (r: Outcome<Reading<seq<Record>>>)
    requires IsDigest(h) && |records| < TWO_64 && (expected < 0 || expected == |records|)
    ensures r.Ok? <==> Small(records)
    ensures r.Ok? ==> r.value == Got(records)
  {
    var written, blocks := Encode(h, records);
    if written.Failed? {
      return Failed;
    }
    RunRoundTrip.RunRoundTrip(h, blocks, expected);
    var read := RunStream.ReadBytes(h, written.value, true, expected);
    r := Ok(read);
  }
}
