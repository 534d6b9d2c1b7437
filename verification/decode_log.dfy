/**
 * The decode log: a text blob that gains one `[timestamp] text` line per
 * decode and is otherwise only cleared as a whole.
 */
module DecodeLog {

  /** `` `[${getUTC()}] ${decoded}\n` ``, with the UTC timestamp given as text. */
  function LogLine(stamp: string, decoded: string): (line: string)
    ensures |line| == |stamp| + |decoded| + 4
    ensures line[0] == '[' && line[|line| - 1] == '\n'
  {
    "[" + stamp + "] " + decoded + "\n"
  }

  /** Number of newline characters, that is of complete log lines. */
  function LineCount(s: string): nat
  {
    if |s| == 0 then 0 else (if s[0] == '\n' then 1 else 0) + LineCount(s[1..])
  }

  lemma {:induction false} LineCountAppend(a: string, b: string)
    ensures LineCount(a + b) == LineCount(a) + LineCount(b)
  {
    if |a| == 0 {
      assert a + b == b;
    } else {
      assert (a + b)[1..] == a[1..] + b;
      LineCountAppend(a[1..], b);
    }
  }

  lemma {:induction false} NoNewline(s: string)
    requires '\n' !in s
    ensures LineCount(s) == 0
  {
    if |s| > 0 {
      NoNewline(s[1..]);
    }
  }

  /** A log line without newlines in its parts holds exactly one newline, its last character. */
  lemma LogLineHasOneNewline(stamp: string, decoded: string)
    requires '\n' !in stamp && '\n' !in decoded
    ensures LineCount(LogLine(stamp, decoded)) == 1
  {
    var bracketed := "[" + stamp;
    var stamped := bracketed + "] ";
    var body := stamped + decoded;
    assert LogLine(stamp, decoded) == body + "\n";
    NoNewline(stamp);
    NoNewline(decoded);
    assert LineCount("[") == 0 by { assert "["[1..] == ""; }
    assert LineCount("] ") == 0 by { assert "] "[1..] == " "; assert " "[1..] == ""; }
    assert LineCount("\n") == 1 by { assert "\n"[1..] == ""; }
    LineCountAppend("[", stamp);
    LineCountAppend(bracketed, "] ");
    LineCountAppend(stamped, decoded);
    LineCountAppend(body, "\n");
  }

  /**
   * `log += line`: the earlier log is kept as a prefix, and when neither the
   * timestamp nor the decoded text holds a newline the log gains exactly one line.
   */
  lemma AppendAddsOneLine(log: string, stamp: string, decoded: string)
    requires '\n' !in stamp && '\n' !in decoded
    ensures (log + LogLine(stamp, decoded))[..|log|] == log
    ensures LineCount(log + LogLine(stamp, decoded)) == LineCount(log) + 1
  {
    LogLineHasOneNewline(stamp, decoded);
    LineCountAppend(log, LogLine(stamp, decoded));
  }
}
