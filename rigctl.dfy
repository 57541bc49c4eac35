/**
 * The SDR++ side of sync.h: the textual rigctl exchange over the socket.
 * A command is written, one reply is read into a local buffer of BUFSIZE
 * chars, and the reply is judged as a C string: equal to the failure sentinel
 * `RPRT 1`, or parsed from its first newline-delimited token.
 *
 * The socket is not modelled: the bytes one `read` returns are a parameter.
 */
module Rigctl {
  import opened Wrappers
  import opened CInt

  /** Size of every command and reply buffer. */
  const BUFSIZE: nat := 1024

  /** The most bytes one read may deliver so that the terminating NUL still fits. */
  const READ_LIMIT: nat := BUFSIZE - 1

  /** The count receive_data passes to read: `read(sockfd, buf, BUFSIZE)`. */
  const READ_COUNT: nat := BUFSIZE

  /** The reply that signals failure for every command. */
  const FAILURE: string := "RPRT 1"

  const FREQ_QUERY: string := "f\n"
  const MODE_QUERY: string := "m\n"

  // ---------------------------------------------------------------- C strings

  /** The text of `s` before the first `delim` (all of `s` if there is none). */
  function Before(s: string, delim: char): (t: string)
    ensures t <= s && delim !in t
    ensures |t| == |s| || s[|t|] == delim
  {
    if s == [] || s[0] == delim then [] else [s[0]] + Before(s[1..], delim)
  }

  /** The C string stored in `s`: everything before the first NUL (all of `s` if none). */
  function CString(s: string): (c: string)
    ensures c <= s && '\0' !in c
    ensures |c| == |s| || s[|c|] == '\0'
  {
    Before(s, '\0')
  }

  lemma {:induction false} CStringAt(s: string, m: nat)
    requires m < |s| && s[m] == '\0'
    requires forall k :: 0 <= k < m ==> s[k] != '\0'
    ensures CString(s) == s[..m]
    decreases m
  {
    if m > 0 {
      CStringAt(s[1..], m - 1);
      assert s[..m] == [s[0]] + s[1..][..m - 1];
    }
  }

  lemma {:induction false} CStringOfCString(s: string)
    requires '\0' !in s
    ensures CString(s) == s
    decreases |s|
  {
    if s != [] {
      CStringOfCString(s[1..]);
    }
  }

  /**
   * receive_data without a bound check: `read(sockfd, buf, BUFSIZE)` delivers `data`, at
   * most BUFSIZE bytes, and `buf[n] = '\0'` is written at n = |data|. The
   * result is the new buffer, or None when that write falls outside the
   * BUFSIZE chars of `buf` (undefined behaviour in C).
   */
  function ReceiveUnchecked(buf: string, data: string): (r: Option<string>)
    requires |buf| == BUFSIZE && |data| <= READ_COUNT
    ensures r.Some? ==> |data| < BUFSIZE && |r.value| == BUFSIZE && r.value[..|data|] == data && r.value[|data|] == '\0'
    ensures r.Some? ==> r.value[|data| + 1..] == buf[|data| + 1..]
  {
    var n := |data|;
    if n < |buf| then Some(data + ['\0'] + buf[n + 1..]) else None
  }

  /** The terminator lands inside the buffer exactly when the read left at least one char free. */
  lemma ReceiveInBoundsExactly(buf: string, data: string)
    requires |buf| == BUFSIZE && |data| <= READ_COUNT
    ensures ReceiveUnchecked(buf, data).Some? <==> |data| <= READ_LIMIT
  {
  }

  /** A reply that fills the whole buffer, here 1024 newlines, makes receive_data write past its end. */
  lemma ReceiveOverrun(buf: string)
    requires |buf| == BUFSIZE
    ensures var data := Newlines(BUFSIZE); |data| == READ_COUNT && ReceiveUnchecked(buf, data).None?
  {
  }

  /**
   * receive_data: store the bytes one read delivered at the front of `buf` and
   * terminate them with NUL. The bytes may hold a NUL of their own; the C
   * string the buffer then holds is the one before the first NUL.
   */
  method ReceiveData(buf: array<char>, data: string) returns (n: nat)
    requires buf.Length == BUFSIZE && |data| <= READ_LIMIT
    modifies buf
    ensures n == |data| && n < buf.Length
    ensures buf[..n] == data && buf[n] == '\0'
    ensures buf[n + 1..] == old(buf[n + 1..])
    ensures CString(buf[..]) == CString(data)
    ensures Some(buf[..]) == ReceiveUnchecked(old(buf[..]), data)
  {
    n := |data|;
    forall i | 0 <= i < n {
      buf[i] := data[i];
    }
    buf[n] := '\0';
    assert buf[..] == data + ['\0'] + old(buf[..])[n + 1..];
    CStringPrefix(buf[..], n);
  }

  /** The C string in a buffer whose index n holds NUL is the C string of its first n chars. */
  lemma {:induction false} CStringPrefix(s: string, n: nat)
    requires n < |s| && s[n] == '\0'
    ensures CString(s) == CString(s[..n])
    decreases n
  {
    if n > 0 && s[0] != '\0' {
      assert s[1..][..n - 1] == s[..n][1..];
      CStringPrefix(s[1..], n - 1);
    }
  }

  // ------------------------------------------------------------ strtok(s, "\n")

  /** What strtok skips before a token: the leading newlines. */
  function SkipNewlines(s: string): (t: string)
    ensures |t| <= |s|
    ensures t == [] || t[0] != '\n'
  {
    if s != [] && s[0] == '\n' then SkipNewlines(s[1..]) else s
  }

  /** What SkipNewlines keeps is a suffix of its input, and all it drops are newlines. */
  lemma {:induction false} SkipNewlinesSuffix(s: string)
    ensures SkipNewlines(s) == s[|s| - |SkipNewlines(s)|..]
    ensures forall i :: 0 <= i < |s| - |SkipNewlines(s)| ==> s[i] == '\n'
    decreases |s|
  {
    if s != [] && s[0] == '\n' {
      SkipNewlinesSuffix(s[1..]);
      assert s[1..][|s| - 1 - |SkipNewlines(s)|..] == s[|s| - |SkipNewlines(s)|..];
    }
  }

  /** The text up to (not including) the first newline. */
  function UpToNewline(s: string): string
  {
    Before(s, '\n')
  }

  /** `strtok(s, "\n")` on a C string: the first token, or NULL when there is none. */
  function FirstToken(s: string): (r: Option<string>)
    ensures r.Some? ==> r.value != [] && '\n' !in r.value
  {
    var t := SkipNewlines(s);
    if t == [] then None else Some(UpToNewline(t))
  }

  /** k newline chars. */
  function Newlines(k: nat): (s: string)
    ensures |s| == k
  {
    if k == 0 then [] else ['\n'] + Newlines(k - 1)
  }

  lemma {:induction false} SkipNewlinesOver(k: nat, t: string)
    requires t == [] || t[0] != '\n'
    ensures SkipNewlines(Newlines(k) + t) == t
    decreases k
  {
    if k == 0 {
      assert Newlines(0) + t == t;
    } else {
      var u := Newlines(k - 1) + t;
      assert Newlines(k) + t == ['\n'] + u;
      assert (['\n'] + u)[1..] == u;
      SkipNewlinesOver(k - 1, t);
    }
  }

  lemma {:induction false} UpToNewlineOver(line: string, rest: string)
    requires '\n' !in line
    requires rest == [] || rest[0] == '\n'
    ensures UpToNewline(line + rest) == line
    decreases |line|
  {
    if line == [] {
      assert line + rest == rest;
    } else {
      assert (line + rest)[1..] == line[1..] + rest;
      UpToNewlineOver(line[1..], rest);
    }
  }

  /** strtok finds no token exactly when the string is nothing but newlines. */
  lemma FirstTokenNone(s: string)
    ensures FirstToken(s).None? <==> forall i :: 0 <= i < |s| ==> s[i] == '\n'
  {
    var t := SkipNewlines(s);
    SkipNewlinesSuffix(s);
    if t != [] {
      assert s[|s| - |t|] == t[0];
    }
  }

  /** The token strtok returns is the first line after any leading newlines. */
  lemma FirstTokenOfLine(k: nat, line: string, rest: string)
    requires line != [] && '\n' !in line
    requires rest == [] || rest[0] == '\n'
    ensures FirstToken(Newlines(k) + line + rest) == Some(line)
  {
    assert Newlines(k) + line + rest == Newlines(k) + (line + rest);
    SkipNewlinesOver(k, line + rest);
    UpToNewlineOver(line, rest);
  }

  /** With no NUL before index j, the C string reaches at least to j. */
  lemma {:induction false} CStringReaches(s: string, j: nat)
    requires j <= |s|
    requires forall k :: 0 <= k < j ==> s[k] != '\0'
    ensures |CString(s)| >= j
    decreases j
  {
    if j > 0 {
      CStringReaches(s[1..], j - 1);
    }
  }

  /** A C string that reaches index j is the first j chars followed by the rest of the C string. */
  lemma SplitAt(s: string, j: nat)
    requires j <= |CString(s)|
    ensures CString(s) == s[..j] + CString(s)[j..]
  {
    var c := CString(s);
    assert c[..j] == s[..j];
    assert c == c[..j] + c[j..];
  }

  lemma {:induction false} NewlinesPrefix(s: string, i: nat)
    requires i <= |s|
    requires forall k :: 0 <= k < i ==> s[k] == '\n'
    ensures s[..i] == Newlines(i)
    decreases i
  {
    if i > 0 {
      NewlinesPrefix(s[1..], i - 1);
      assert s[..i] == [s[0]] + s[1..][..i - 1];
    }
  }

  /** strtok finds no token when only newlines precede the terminator. */
  lemma NoTokenBefore(s: string, i: nat)
    requires i < |s| && s[i] == '\0'
    requires forall k :: 0 <= k < i ==> s[k] == '\n'
    ensures FirstToken(CString(s)).None?
  {
    CStringAt(s, i);
    FirstTokenNone(CString(s));
  }

  lemma NoNewlineInRun(s: string, i: nat, j: nat)
    requires i <= j <= |s|
    requires forall k :: i <= k < j ==> s[k] != '\n'
    ensures '\n' !in s[i..j]
  {
    assert forall k :: 0 <= k < j - i ==> s[i..j][k] == s[i + k];
  }

  /** A C string that reaches a newline or NUL at j goes on, after j, with nothing or with that newline. */
  lemma RestAfterRun(s: string, j: nat)
    requires j < |s| && j <= |CString(s)|
    requires s[j] == '\n' || s[j] == '\0'
    ensures var rest := CString(s)[j..]; rest == [] || rest[0] == '\n'
  {
    var c := CString(s);
    if j < |c| {
      assert c[j..][0] == c[j] == s[j];
    }
  }

  /** The C string of s laid out as newlines, the run from i to j, and the rest. */
  lemma TokenLayout(s: string, i: nat, j: nat)
    requires i <= j < |s|
    requires forall k :: 0 <= k < i ==> s[k] == '\n'
    requires forall k :: 0 <= k < j ==> s[k] != '\0'
    ensures CString(s) == Newlines(i) + s[i..j] + CString(s)[j..]
  {
    CStringReaches(s, j);
    SplitAt(s, j);
    NewlinesPrefix(s, i);
    assert s[..j] == s[..i] + s[i..j];
  }

  /**
   * strtok's token, located by index: newlines before i, a run of ordinary
   * chars from i to j, and a newline or NUL at j.
   */
  lemma TokenBetween(s: string, i: nat, j: nat)
    requires i < j < |s|
    requires s[j] == '\n' || s[j] == '\0'
    requires forall k :: 0 <= k < i ==> s[k] == '\n'
    requires forall k :: i <= k < j ==> s[k] != '\n' && s[k] != '\0'
    ensures FirstToken(CString(s)) == Some(s[i..j])
  {
    TokenLayout(s, i, j);
    CStringReaches(s, j);
    RestAfterRun(s, j);
    NoNewlineInRun(s, i, j);
    FirstTokenOfLine(i, s[i..j], CString(s)[j..]);
  }

  /** Overwriting index j with NUL leaves the run from i to j as the C string starting at i. */
  lemma TerminatedAt(s: string, i: nat, j: nat)
    requires i < j < |s|
    requires forall k :: i <= k < j ==> s[k] != '\0'
    ensures CString(s[j := '\0'][i..]) == s[i..j]
  {
    var b := s[j := '\0'][i..];
    CStringAt(b, j - i);
    assert b[..j - i] == s[i..j];
  }

  /** strspn(buf, "\n") on a C string: the index of its first char that is not a newline. */
  method SpanNewlines(buf: array<char>, ghost nul: nat) returns (i: nat)
    requires nul < buf.Length && buf[nul] == '\0'
    ensures i <= nul && buf[i] != '\n'
    ensures forall j :: 0 <= j < i ==> buf[j] == '\n'
  {
    i := 0;
    while buf[i] == '\n'
      invariant i <= nul
      invariant forall j :: 0 <= j < i ==> buf[j] == '\n'
      decreases nul - i
    {
      i := i + 1;
    }
  }

  /** strcspn from index i: the index of the first newline or NUL at or after i. */
  method SpanLine(buf: array<char>, i: nat, ghost nul: nat) returns (j: nat)
    requires i <= nul < buf.Length && buf[nul] == '\0'
    ensures i <= j <= nul && (buf[j] == '\n' || buf[j] == '\0')
    ensures forall k :: i <= k < j ==> buf[k] != '\n' && buf[k] != '\0'
  {
    j := i;
    while buf[j] != '\0' && buf[j] != '\n'
      invariant i <= j <= nul
      invariant forall k :: i <= k < j ==> buf[k] != '\n' && buf[k] != '\0'
      decreases nul - j
    {
      j := j + 1;
    }
  }

  /**
   * strtok(buf, "\n") on an array holding a C string: skip leading newlines,
   * and if a token starts, end it by overwriting the newline after it with NUL.
   * Returns the token's start index, or None for strtok's NULL.
   */
  method Strtok(buf: array<char>) returns (start: Option<nat>)
    requires exists m :: 0 <= m < buf.Length && buf[m] == '\0'
    modifies buf
    ensures start.None? <==> FirstToken(CString(old(buf[..]))).None?
    ensures start.Some? ==>
      (start.value < buf.Length && CString(buf[start.value..]) == FirstToken(CString(old(buf[..]))).value)
    ensures start.None? ==> buf[..] == old(buf[..])
    ensures start.Some? ==> forall j :: 0 <= j < start.value ==> old(buf[j]) == '\n'
    ensures start.Some? ==>
      var e := start.value + |FirstToken(CString(old(buf[..]))).value|;
      e < buf.Length && (old(buf[e]) == '\n' || old(buf[e]) == '\0') && buf[..] == old(buf[..])[e := '\0']
  {
    ghost var s := buf[..];
    ghost var m :| 0 <= m < buf.Length && buf[m] == '\0';
    var i := SpanNewlines(buf, m);
    if buf[i] == '\0' {
      NoTokenBefore(s, i);
      return None;
    }
    var j := SpanLine(buf, i, m);
    TokenBetween(s, i, j);
    TerminatedAt(s, i, j);
    if buf[j] == '\n' {
      buf[j] := '\0';
    }
    assert buf[..] == s[j := '\0'];
    assert buf[i..] == s[j := '\0'][i..];
    start := Some(i);
  }

  // -------------------------------------------------------- replies, commands

  /** The value GetCurrentFreq returns for a reply; None stands for strtol on a NULL token. */
  function CurrentFreqOf(reply: string): (r: Option<Long>)
    ensures reply == FAILURE ==> r == Some(0)
    ensures r.None? <==> reply != FAILURE && forall i :: 0 <= i < |reply| ==> reply[i] == '\n'
  {
    FirstTokenNone(reply);
    if reply == FAILURE then Some(0)
    else match FirstToken(reply)
      case None => None
      case Some(token) => Some(Strtol(token))
  }

  /** The value SetFreq and SetModulation return: 1 for the failure sentinel, 0 for any other reply. */
  function SetStatusOf(reply: string): (status: int)
    ensures status == 0 || status == 1
    ensures status == 1 <==> reply == FAILURE
  {
    if reply == FAILURE then 1 else 0
  }

  /** The value GetModulation returns: "" for the failure sentinel, else strtok's first token. */
  function ModulationOf(reply: string): (r: Option<string>)
    ensures reply == FAILURE ==> r == Some("")
    ensures r.None? <==> reply != FAILURE && forall i :: 0 <= i < |reply| ==> reply[i] == '\n'
    ensures r.Some? && reply != FAILURE ==> r.value != [] && '\n' !in r.value
  {
    FirstTokenNone(reply);
    if reply == FAILURE then Some("") else FirstToken(reply)
  }

  /** `sprintf(buf, "F %ld\n", freq)`. */
  function FreqCommand(freq: Long): (cmd: string)
    ensures |cmd| >= 4 && cmd[..2] == "F " && cmd[|cmd| - 1] == '\n' && '\0' !in cmd
  {
    "F " + Decimal(freq) + "\n"
  }

  /** `sprintf(buf, "M %s %d\n", mode, bandwidth)`. */
  function ModeCommand(mode: string, bandwidth: Int): (cmd: string)
    ensures |cmd| >= |mode| + 5 && cmd[..2] == "M " && cmd[2..2 + |mode|] == mode && cmd[2 + |mode|] == ' ' && cmd[|cmd| - 1] == '\n'
  {
    "M " + mode + " " + Decimal(bandwidth) + "\n"
  }

  // ------------------------------------------------------------------ lemmas

  /** Any reply other than the sentinel yields the strtol of its first line after leading newlines. */
  lemma FreqOfFirstLine(k: nat, line: string, rest: string)
    requires line != [] && '\n' !in line
    requires rest == [] || rest[0] == '\n'
    requires Newlines(k) + line + rest != FAILURE
    ensures CurrentFreqOf(Newlines(k) + line + rest) == Some(Strtol(line))
  {
    FirstTokenOfLine(k, line, rest);
  }

  /** Any reply other than the sentinel yields its first line after leading newlines as the mode. */
  lemma ModeOfFirstLine(k: nat, line: string, rest: string)
    requires line != [] && '\n' !in line
    requires rest == [] || rest[0] == '\n'
    requires Newlines(k) + line + rest != FAILURE
    ensures ModulationOf(Newlines(k) + line + rest) == Some(line)
  {
    FirstTokenOfLine(k, line, rest);
  }

  /** Round trip: a frequency printed with `%ld` and a newline reads back as itself. */
  lemma FreqReplyRoundTrip(freq: Long)
    ensures CurrentFreqOf(Decimal(freq) + "\n") == Some(freq)
  {
    var line := Decimal(freq);
    assert Newlines(0) + line + "\n" == line + "\n";
    assert line + "\n" != FAILURE by {
      assert (line + "\n")[0] == line[0];
    }
    FreqOfFirstLine(0, line, "\n");
    StrtolOfDecimal(freq, "");
    assert line + "" == line;
  }

  /** SetFreq's command carries the frequency: strtol of its argument gives it back, and it fits the buffer. */
  lemma FreqCommandCarriesFreq(freq: Long)
    ensures var cmd := FreqCommand(freq);
      cmd[..2] == "F " && cmd[|cmd| - 1] == '\n' && Strtol(cmd[2..]) == freq && |cmd| < BUFSIZE
  {
    var cmd := FreqCommand(freq);
    assert cmd[2..] == Decimal(freq) + "\n";
    StrtolOfDecimal(freq, "\n");
    DecimalLongLength(freq);
  }

  /** strtol of what follows the mode in SetModulation's command gives the bandwidth back. */
  lemma ModeCommandCarriesBandwidth(mode: string, bandwidth: Int)
    ensures Strtol(ModeCommand(mode, bandwidth)[3 + |mode|..]) == bandwidth
  {
    var arg := Decimal(bandwidth) + "\n";
    assert ModeCommand(mode, bandwidth) == ("M " + mode + " ") + arg;
    SuffixAfter("M " + mode + " ", arg);
    StrtolOfDecimal(bandwidth, "\n");
  }

  lemma SuffixAfter(head: string, tail: string)
    ensures (head + tail)[|head|..] == tail
  {
  }

  /** A mode label sent back as one line reads back as itself. */
  lemma ModeReplyRoundTrip(name: string)
    requires name != [] && '\n' !in name
    ensures ModulationOf(name + "\n") == Some(name)
  {
    assert Newlines(0) + name + "\n" == name + "\n";
    FirstTokenOfLine(0, name, "\n");
    assert name + "\n" != FAILURE by {
      if |name| == 5 { assert (name + "\n")[5] == '\n'; }
    }
  }

  /**
   * The comparison is exact: a sentinel followed by a newline is not taken as
   * failure by SetFreq, and GetCurrentFreq reads it through strtol as 0.
   */
  lemma NewlineTerminatedSentinel()
    ensures SetStatusOf(FAILURE + "\n") == 0
    ensures CurrentFreqOf(FAILURE + "\n") == Some(0)
  {
    assert FAILURE + "\n" == Newlines(0) + FAILURE + "\n";
    FreqOfFirstLine(0, FAILURE, "\n");
    var r := FAILURE;
    assert r[0] == 'R';
    assert SkipSpace(r) == r;
    assert LeadingDigits(r) == [];
  }

  // ------------------------------------------------- the sync.h functions

  /** GetCurrentFreq: send `f\n`, read the reply, turn it into a frequency. */
  method GetCurrentFreq(data: string) returns (sent: string, freq: Option<Long>)
    requires |data| <= READ_LIMIT
    ensures sent == FREQ_QUERY
    ensures freq == CurrentFreqOf(CString(data))
  {
    var buf := new char[BUFSIZE];
    sent := FREQ_QUERY;
    var n := ReceiveData(buf, data);
    if CString(buf[..]) == FAILURE {
      return sent, Some(0);
    }
    var token := Strtok(buf);
    match token
    case None =>
      freq := None;
    case Some(k) =>
      freq := Some(Strtol(CString(buf[k..])));
  }

  /** SetFreq: send `F <freq>\n`, read the reply, return 1 for the sentinel and 0 otherwise. */
  method SetFreq(freq: Long, data: string) returns (sent: string, status: int)
    requires |data| <= READ_LIMIT
    ensures sent == FreqCommand(freq)
    ensures status == SetStatusOf(CString(data))
  {
    var buf := new char[BUFSIZE];
    sent := FreqCommand(freq);
    var n := ReceiveData(buf, data);
    status := if CString(buf[..]) == FAILURE then 1 else 0;
  }

  /** GetModulation: send `m\n`, read the reply, return "" for the sentinel, else its first token. */
  method GetModulation(data: string) returns (sent: string, mode: Option<string>)
    requires |data| <= READ_LIMIT
    ensures sent == MODE_QUERY
    ensures mode == ModulationOf(CString(data))
  {
    var buf := new char[BUFSIZE];
    sent := MODE_QUERY;
    var n := ReceiveData(buf, data);
    if CString(buf[..]) == FAILURE {
      return sent, Some("");
    }
    var token := Strtok(buf);
    match token
    case None =>
      mode := None;
    case Some(k) =>
      mode := Some(CString(buf[k..]));
  }

  /** SetModulation: send `M <mode> <bandwidth>\n`, read the reply, return 1 for the sentinel and 0 otherwise. */
  method SetModulation(mode: string, bandwidth: Int, data: string) returns (sent: string, status: int)
    requires '\0' !in mode
    requires |ModeCommand(mode, bandwidth)| < BUFSIZE
    requires |data| <= READ_LIMIT
    ensures sent == ModeCommand(mode, bandwidth)
    ensures status == SetStatusOf(CString(data))
  {
    var buf := new char[BUFSIZE];
    sent := ModeCommand(mode, bandwidth);
    var n := ReceiveData(buf, data);
    status := if CString(buf[..]) == FAILURE then 1 else 0;
  }
}
