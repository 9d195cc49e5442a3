/** The shape every text summary of the integrations shares: a header line,
    then one line per item, or a single fallback line when there are no
    items, joined with newlines (integrations/outlook.py:366-389,
    integrations/google_drive.py:174-192 and 216-249). */
module Report {
  import opened Text

  /** The lines of a summary: the header, then the body lines, or the
      fallback line when the body is empty. */
  function ReportLines(header: string, body: seq<string>, fallback: string): seq<string> {
    [header] + (if body == [] then [fallback] else body)
  }

  /** `"\n".join(lines)` */
  function ReportText(header: string, body: seq<string>, fallback: string): string {
    Join(ReportLines(header, body, fallback), "\n")
  }

  /** Whether a line can be told apart in the joined text. */
  predicate SingleLine(s: string) {
    '\n' !in s
  }

  /** When no line holds a newline, the summary text splits back into the
      header and then either the body lines, in order, or exactly the
      fallback line; so the text has `1 + max(1, |body|)` lines. */
  lemma ReportTextLines(header: string, body: seq<string>, fallback: string)
    requires SingleLine(header) && SingleLine(fallback)
    requires forall i :: 0 <= i < |body| ==> SingleLine(body[i])
    ensures var lines := Split(ReportText(header, body, fallback), '\n');
            && lines[0] == header
            && (body == [] ==> lines == [header, fallback])
            && (body != [] ==> lines[1..] == body)
            && |lines| == 1 + (if body == [] then 1 else |body|)
  {
    var lines := ReportLines(header, body, fallback);
    assert forall i :: 0 <= i < |lines| ==> '\n' !in lines[i] by {
      forall i | 0 <= i < |lines| ensures '\n' !in lines[i] {
        if i > 0 && body != [] {
          assert lines[i] == body[i - 1];
        }
      }
    }
    SplitJoin(lines, '\n');
  }
}
