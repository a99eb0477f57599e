/**
 * The in-page collector of content.js: on a `collectDomainInfo` message it
 * folds the page's resource-timing entries into one record per hostname,
 * the first entry for a hostname winning.
 */
module Timing {
  import opened Common
  import Url

  /**
   * One `PerformanceResourceTiming` entry. A field that is not a number is
   * None; `duration` is taken as already rounded to whole milliseconds.
   */
  datatype ResourceEntry = ResourceEntry(
    name: string,
    duration: Option<nat>,
    transferSize: Option<int>,
    encodedBodySize: Option<int>,
    decodedBodySize: Option<int>)

  /** The `{url, duration, size}` record sent back for one hostname. */
  datatype TimingRecord = TimingRecord(url: string, duration: nat, size: nat)

  predicate Positive(v: Option<int>) { v.Some? && v.value > 0 }

  /**
   * The size of an entry: transferSize if positive, else encodedBodySize
   * if positive, else decodedBodySize if positive, else 0.
   */
  function EntrySize(e: ResourceEntry): (r: nat)
    ensures r == 0 <==> !Positive(e.transferSize) && !Positive(e.encodedBodySize) && !Positive(e.decodedBodySize)
    ensures Positive(e.transferSize) ==> r == e.transferSize.value
    ensures r > 0 ==> Some(r) == e.transferSize || Some(r) == e.encodedBodySize || Some(r) == e.decodedBodySize
  {
    if Positive(e.transferSize) then e.transferSize.value
    else if Positive(e.encodedBodySize) then e.encodedBodySize.value
    else if Positive(e.decodedBodySize) then e.decodedBodySize.value
    else 0
  }

  /** A body size is used only when the transferred size is not positive. */
  lemma SizePrecedence(e: ResourceEntry)
    ensures !Positive(e.transferSize) && Positive(e.encodedBodySize) ==> EntrySize(e) == e.encodedBodySize.value
    ensures !Positive(e.transferSize) && !Positive(e.encodedBodySize) && Positive(e.decodedBodySize)
      ==> EntrySize(e) == e.decodedBodySize.value
  {
  }

  /** The record for an entry; a missing duration counts as 0. */
  function EntryRecord(e: ResourceEntry): (r: TimingRecord)
    ensures r.url == e.name
    ensures e.duration.None? ==> r.duration == 0
    ensures e.duration.Some? ==> r.duration == e.duration.value
    ensures r.size == EntrySize(e)
  {
    TimingRecord(e.name, e.duration.GetOr(0), EntrySize(e))
  }

  /** The hostnames of the entries' names, None where `new URL` throws. */
  function Hosts(entries: seq<ResourceEntry>): (hs: seq<Option<string>>)
    ensures |hs| == |entries|
    ensures forall i :: 0 <= i < |entries| ==> hs[i] == Url.HostOf(entries[i].name)
  {
    seq(|entries|, i requires 0 <= i < |entries| => Url.HostOf(entries[i].name))
  }

  /** Position i holds the first occurrence of Some(h) in hosts. */
  predicate FirstIn(hosts: seq<Option<string>>, h: string, i: int) {
    0 <= i < |hosts| && hosts[i] == Some(h) && Some(h) !in hosts[..i]
  }

  /** Entry i is the first entry whose name has hostname h. */
  predicate FirstFor(entries: seq<ResourceEntry>, h: string, i: int) {
    FirstIn(Hosts(entries), h, i)
  }

  /**
   * The `forEach` of content.js. Entries whose name does not parse are
   * skipped; the others are keyed by hostname, only when the key is absent.
   */
  method CollectDomainInfo(entries: seq<ResourceEntry>) returns (m: map<string, TimingRecord>)
    ensures forall h :: h in m <==> Some(h) in Hosts(entries)
    ensures forall h :: h in m ==> exists i :: FirstFor(entries, h, i) && m[h] == EntryRecord(entries[i])
  {
    var hosts := Hosts(entries);
    m := map[];
    ghost var first: map<string, nat> := map[];
    for j := 0 to |entries|
      invariant m.Keys == first.Keys
      invariant forall h :: h in first ==> first[h] < j && FirstIn(hosts, h, first[h])
      invariant forall h :: h in first ==> m[h] == EntryRecord(entries[first[h]])
      invariant forall h :: Some(h) in hosts[..j] <==> h in m
    {
      var host := hosts[j];
      assert hosts[..j + 1] == hosts[..j] + [host];
      if host.Some? && host.value !in m {
        first := first[host.value := j];
        m := m[host.value := EntryRecord(entries[j])];
      }
    }
    assert hosts[..|entries|] == hosts;
    forall h | h in m
      ensures exists i :: FirstFor(entries, h, i) && m[h] == EntryRecord(entries[i])
    {
      assert FirstFor(entries, h, first[h]);
    }
  }

  /** The first entry of a hostname determines its record, whatever follows. */
  lemma FirstForUnique(entries: seq<ResourceEntry>, h: string, i: int, j: int)
    requires FirstFor(entries, h, i) && FirstFor(entries, h, j)
    ensures i == j
  {
  }

  /** The content script answers only the `collectDomainInfo` action. */
  method HandleMessage(action: string, entries: seq<ResourceEntry>) returns (response: Option<map<string, TimingRecord>>)
    ensures response.Some? <==> action == "collectDomainInfo"
    ensures response.Some? ==> forall h :: h in response.value <==> Some(h) in Hosts(entries)
    ensures response.Some? ==> forall h :: h in response.value ==>
      exists i :: FirstFor(entries, h, i) && response.value[h] == EntryRecord(entries[i])
  {
    if action == "collectDomainInfo" {
      var m := CollectDomainInfo(entries);
      response := Some(m);
    } else {
      response := None;
    }
  }
}
