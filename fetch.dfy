/**
 * The pure decisions of `download_file` in src/utils.rs: which local file a URL is saved to, and
 * which checksum the `md5sum` output reports. The steps that touch the host are in the Host module.
 */
module Fetch {
  import opened Text

  function Last(parts: seq<string>): string
    requires |parts| >= 1
  {
    parts[|parts| - 1]
  }

  lemma {:induction false} JoinEndsWithLast(parts: seq<string>, c: char)
    requires |parts| >= 1
    ensures |parts| == 1 ==> JoinWith(parts, c) == parts[0]
    ensures |parts| > 1 ==> EndsWith(JoinWith(parts, c), [c] + Last(parts))
    decreases |parts|
  {
    if |parts| > 1 {
      var tail := JoinWith(parts[1..], c);
      JoinEndsWithLast(parts[1..], c);
      assert Last(parts[1..]) == Last(parts);
      var whole := JoinWith(parts, c);
      assert whole == parts[0] + [c] + tail;
      var e := [c] + Last(parts);
      if |parts| == 2 {
        assert tail == Last(parts);
        assert whole == parts[0] + e;
        assert whole[|whole| - |e|..] == e;
      } else {
        assert whole == (parts[0] + [c]) + tail;
        assert whole[|whole| - |e|..] == tail[|tail| - |e|..];
      }
    }
  }

  /** The local file name: the text after the last '/' of the URL (`url.split('/').last()`). */
  function FileName(url: string): (name: string)
    ensures '/' !in name
    ensures EndsWith(url, name)
    ensures '/' in url ==> EndsWith(url, "/" + name)
    ensures '/' !in url ==> name == url
  {
    var parts := SplitOn(url, '/');
    JoinSplitOn(url, '/');
    JoinEndsWithLast(parts, '/');
    Last(parts)
  }

  /** The checksum `download_file` compares: the first whitespace token of md5sum's output, or "". */
  function ReportedChecksum(md5sumOutput: string): (checksum: string)
    ensures NoWhitespace(checksum)
  {
    FirstToken(md5sumOutput)
  }

  /** md5sum prints "<digest>  <path>\n"; the digest is what is compared. */
  lemma ReportedChecksumOfLine(digest: string, path: string)
    requires IsToken(digest)
    ensures ReportedChecksum(digest + "  " + path + "\n") == digest
  {
    var rest := "  " + path + "\n";
    assert digest + "  " + path + "\n" == digest + rest;
    SplitWhitespaceCons(digest, rest);
  }
}
