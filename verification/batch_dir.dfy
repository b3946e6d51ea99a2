/**
 The name of the directory a download batch is written to: "batch-" followed
 by the request's ISO timestamp with every ':' and '.' turned into '-', so the
 name is safe as a path component. The timestamp is an input here.
 */
module BatchDir {
  import opened JsValues

  const Prefix: string := "batch-"

  /** The layout of `Date.prototype.toISOString` for years 0 to 9999; 'd' stands for a digit. */
  const IsoLayout: string := "dddd-dd-ddTdd:dd:dd.dddZ"

  predicate IsSeparator(c: char) {
    c == ':' || c == '.'
  }

  predicate IsIsoTimestamp(s: string) {
    && |s| == |IsoLayout|
    && forall k :: 0 <= k < |s| ==>
         if IsoLayout[k] == 'd' then IsDigit(s[k]) else s[k] == IsoLayout[k]
  }

  /** The timestamp with every ':' and '.' replaced by '-', character for character. */
  function Sanitize(s: string): (r: string)
    ensures |r| == |s|
    ensures forall k :: 0 <= k < |r| ==> !IsSeparator(r[k])
    ensures forall k :: 0 <= k < |s| && !IsSeparator(s[k]) ==> r[k] == s[k]
    ensures forall k :: 0 <= k < |s| && IsSeparator(s[k]) ==> r[k] == '-'
  {
    if s == [] then []
    else [if IsSeparator(s[0]) then '-' else s[0]] + Sanitize(s[1..])
  }

  /** The batch directory name for a request made at `timestamp`. */
  function BatchDirName(timestamp: string): (r: string)
    ensures |r| == |timestamp| + |Prefix|
    ensures r[..|Prefix|] == Prefix
    ensures forall k :: |Prefix| <= k < |r| ==> !IsSeparator(r[k])
    ensures forall k :: 0 <= k < |timestamp| && !IsSeparator(timestamp[k]) ==> r[|Prefix| + k] == timestamp[k]
    ensures forall k :: 0 <= k < |timestamp| && IsSeparator(timestamp[k]) ==> r[|Prefix| + k] == '-'
  {
    Prefix + Sanitize(timestamp)
  }

  /** Recovers the ISO timestamp a batch directory name was made from. */
  function TimestampOfBatchDir(name: string): Option<string>
  {
    if |name| != |Prefix| + |IsoLayout| || name[..|Prefix|] != Prefix then None
    else
      Some(seq(|IsoLayout|, k requires 0 <= k < |IsoLayout| =>
        if IsSeparator(IsoLayout[k]) then IsoLayout[k] else name[|Prefix| + k]))
  }

  /** For ISO timestamps the rewrite loses nothing: the timestamp can be read back from the name. */
  lemma BatchDirNameRoundTrip(timestamp: string)
    requires IsIsoTimestamp(timestamp)
    ensures TimestampOfBatchDir(BatchDirName(timestamp)) == Some(timestamp)
  {
    var name := BatchDirName(timestamp);
    assert |name| == |Prefix| + |IsoLayout| && name[..|Prefix|] == Prefix;
    var t := TimestampOfBatchDir(name).value;
    assert |t| == |timestamp|;
    forall k | 0 <= k < |timestamp|
      ensures t[k] == timestamp[k]
    {
      if IsSeparator(IsoLayout[k]) {
        assert timestamp[k] == IsoLayout[k];
      } else {
        assert !IsSeparator(timestamp[k]);
      }
    }
    assert t == timestamp;
  }

  /** Requests made at different ISO timestamps get different batch directories. */
  lemma BatchDirNameInjective(t1: string, t2: string)
    requires IsIsoTimestamp(t1) && IsIsoTimestamp(t2)
    requires t1 != t2
    ensures BatchDirName(t1) != BatchDirName(t2)
  {
  }
}
