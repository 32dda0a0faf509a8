/** The stored chat message as the history views read it: a plain text, or a
    three-line attachment record (sender line, stored path, timestamp). */
module ChatCodec {
  import opened Wrappers
  import opened JsStrings

  /** Directory under which the server stores attachments; a message holding
      it anywhere is taken for an attachment record. */
  const StoragePrefix: string := "app/chats/attachments/"
  /** The prefix the browser loads attachments from. */
  const PublicPrefix: string := "/attachments/"
  /** The word on a sender line that marks the customer. */
  const CustomerMarker: string := "Заказчик"

  datatype Role = Customer | Courier

  /** What one non-blank stored message decodes to. A missing third line
      (`timestamp` left `undefined` by the destructuring) is `None`. */
  datatype ChatMessage =
    | Text(body: string)
    | Attachment(sender: Role, url: string, timestamp: Option<string>)

  /** `msg.split('\n').filter(line => line.trim() !== '')`: the lines of
      the message, in order, less the blank ones. */
  function NonBlankLines(msg: string): (r: seq<string>)
    ensures forall i :: 0 <= i < |r| ==> !IsBlank(r[i]) && '\n' !in r[i]
    ensures forall line :: line in r <==> line in Split(msg, '\n') && !IsBlank(line)
  {
    var r := DropBlank(Split(msg, '\n'));
    forall line
      ensures line in r <==> line in Split(msg, '\n') && !IsBlank(line)
    {
      DropBlankMembers(Split(msg, '\n'), line);
    }
    r
  }

  /** The sender line names the customer when it holds the marker word;
      every other sender line is the courier's. */
  function SenderOf(line: string): (role: Role)
    ensures role == Customer <==> Contains(line, CustomerMarker)
  {
    if Contains(line, CustomerMarker) then Customer else Courier
  }

  /** The attachment branch on its non-blank lines: the destructuring binds
      the first three, and the path line (the second) must exist. */
  function DecodeLines(lines: seq<string>): (r: Option<ChatMessage>)
    ensures r.None? <==> |lines| < 2
    ensures r.Some? ==> r.value.Attachment?
    ensures r.Some? ==> (r.value.sender == Customer <==> Contains(lines[0], CustomerMarker))
    ensures r.Some? ==> r.value.url == ReplaceFirst(lines[1], StoragePrefix, PublicPrefix)
    ensures r.Some? ==> r.value.timestamp == (if |lines| >= 3 then Some(lines[2]) else None)
  {
    if |lines| < 2 then None
    else
      Some(Attachment(
        SenderOf(lines[0]),
        ReplaceFirst(lines[1], StoragePrefix, PublicPrefix),
        if |lines| >= 3 then Some(lines[2]) else None))
  }

  /** The decoder of the history views. A message is an attachment exactly
      when it contains the storage directory; then its first two non-blank
      lines must exist, for the path line is rewritten with `replace`, which
      throws on `undefined` (`None` here). Any other message is text with
      every line break turned into `<br>`. */
  function Decode(msg: string): (r: Option<ChatMessage>)
    ensures r.Some? && r.value.Text? <==> !Contains(msg, StoragePrefix)
    ensures r.None? <==> Contains(msg, StoragePrefix) && |NonBlankLines(msg)| < 2
    ensures r.Some? && r.value.Text? ==> '\n' !in r.value.body
    ensures r.Some? && r.value.Attachment? ==>
      && |NonBlankLines(msg)| >= 2
      && (r.value.sender == Customer <==> Contains(NonBlankLines(msg)[0], CustomerMarker))
      && r.value.url == ReplaceFirst(NonBlankLines(msg)[1], StoragePrefix, PublicPrefix)
      && r.value.timestamp
         == (if |NonBlankLines(msg)| >= 3 then Some(NonBlankLines(msg)[2]) else None)
  {
    if Contains(msg, StoragePrefix) then DecodeLines(NonBlankLines(msg))
    else Some(Text(ReplaceNewlines(msg)))
  }

  /** The three-line record an attachment is stored as. */
  function AttachmentRecord(senderLine: string, path: string, timestamp: string): string {
    senderLine + "\n" + path + "\n" + timestamp
  }

  /** The storage directory holds visible characters, so any string that
      contains it is not blank. */
  lemma NotBlankWhenHoldsPrefix(s: string)
    requires Contains(s, StoragePrefix)
    ensures !IsBlank(s)
  {
    var j :| OccursAt(s, StoragePrefix, j);
    assert s[j] == s[j..j + |StoragePrefix|][0] == 'a';
  }

  lemma SplitRecord(senderLine: string, path: string, timestamp: string)
    requires '\n' !in senderLine && '\n' !in path && '\n' !in timestamp
    ensures Split(AttachmentRecord(senderLine, path, timestamp), '\n') == [senderLine, path, timestamp]
  {
    assert AttachmentRecord(senderLine, path, timestamp)
      == senderLine + ['\n'] + (path + ['\n'] + timestamp);
    SplitAtSeparator(senderLine, path + ['\n'] + timestamp, '\n');
    SplitAtSeparator(path, timestamp, '\n');
    SplitWithoutSeparator(senderLine, '\n');
    SplitWithoutSeparator(path, '\n');
    SplitWithoutSeparator(timestamp, '\n');
  }

  lemma RecordLines(senderLine: string, path: string, timestamp: string)
    requires '\n' !in senderLine && '\n' !in path && '\n' !in timestamp
    requires !IsBlank(senderLine) && !IsBlank(path) && !IsBlank(timestamp)
    ensures NonBlankLines(AttachmentRecord(senderLine, path, timestamp)) == [senderLine, path, timestamp]
  {
    SplitRecord(senderLine, path, timestamp);
    var lines := [senderLine, path, timestamp];
    assert DropBlank(lines[2..]) == [timestamp] by {
      assert lines[2..][1..] == [];
    }
    assert DropBlank(lines[1..]) == [path, timestamp] by {
      assert lines[1..][1..] == lines[2..];
    }
  }

  /** Round trip for attachments: a record written as three non-blank lines
      decodes to its sender role, its path with the storage directory
      rewritten to the public one, and its timestamp. */
  lemma DecodeAttachmentRecord(senderLine: string, path: string, timestamp: string)
    requires '\n' !in senderLine && '\n' !in path && '\n' !in timestamp
    requires !IsBlank(senderLine) && !IsBlank(timestamp)
    requires Contains(path, StoragePrefix)
    ensures Decode(AttachmentRecord(senderLine, path, timestamp))
      == Some(Attachment(SenderOf(senderLine),
                         ReplaceFirst(path, StoragePrefix, PublicPrefix),
                         Some(timestamp)))
  {
    var msg := AttachmentRecord(senderLine, path, timestamp);
    NotBlankWhenHoldsPrefix(path);
    RecordLines(senderLine, path, timestamp);
    ContainsInContext(senderLine + "\n", path, "\n" + timestamp, StoragePrefix);
    assert msg == (senderLine + "\n") + path + ("\n" + timestamp);
  }

  /** A record without its timestamp line still decodes: the destructured
      timestamp is `undefined`, `None` here. */
  lemma DecodeTwoLineRecord(senderLine: string, path: string)
    requires '\n' !in senderLine && '\n' !in path
    requires !IsBlank(senderLine)
    requires Contains(path, StoragePrefix)
    ensures Decode(senderLine + "\n" + path)
      == Some(Attachment(SenderOf(senderLine),
                         ReplaceFirst(path, StoragePrefix, PublicPrefix),
                         None))
  {
    var msg := senderLine + "\n" + path;
    NotBlankWhenHoldsPrefix(path);
    assert msg == senderLine + ['\n'] + path;
    SplitAtSeparator(senderLine, path, '\n');
    SplitWithoutSeparator(senderLine, '\n');
    SplitWithoutSeparator(path, '\n');
    var lines := [senderLine, path];
    assert DropBlank(lines[1..]) == [path] by {
      assert lines[1..][1..] == [];
    }
    assert NonBlankLines(msg) == lines;
    ContainsInContext(senderLine + "\n", path, [], StoragePrefix);
    assert msg == (senderLine + "\n") + path + [];
  }

  lemma ContainsAroundBreak(a: string, mid: string, b: string)
    requires Contains(a, StoragePrefix) || Contains(b, StoragePrefix)
    ensures Contains(a + mid + b, StoragePrefix)
  {
    if Contains(a, StoragePrefix) {
      ContainsInContext([], a, mid + b, StoragePrefix);
      assert [] + a + (mid + b) == a + mid + b;
    } else {
      ContainsInContext(a + mid, b, [], StoragePrefix);
      assert (a + mid) + b + [] == a + mid + b;
    }
  }

  lemma NonBlankLinesOfBlank(blank: string)
    requires IsBlank(blank) && '\n' !in blank
    ensures NonBlankLines(blank) == []
  {
    SplitWithoutSeparator(blank, '\n');
    assert [blank][1..] == [];
  }

  lemma NonBlankLinesSkipBlank(a: string, blank: string, b: string)
    requires IsBlank(blank) && '\n' !in blank
    ensures NonBlankLines(a + "\n" + blank + "\n" + b) == NonBlankLines(a + "\n" + b)
  {
    var tail := blank + "\n" + b;
    assert a + "\n" + blank + "\n" + b == a + "\n" + tail;
    NonBlankLinesAtBreak(a, tail);
    NonBlankLinesAtBreak(blank, b);
    NonBlankLinesOfBlank(blank);
    NonBlankLinesAtBreak(a, b);
    calc {
      NonBlankLines(a + "\n" + tail);
      NonBlankLines(a) + NonBlankLines(tail);
      NonBlankLines(a) + ([] + NonBlankLines(b));
      { assert [] + NonBlankLines(b) == NonBlankLines(b); }
      NonBlankLines(a) + NonBlankLines(b);
      NonBlankLines(a + "\n" + b);
    }
  }

  /** Blank lines anywhere in an attachment record are skipped, so a record
      with a blank line inserted decodes as the record without it. */
  lemma DecodeSkipsBlankLine(a: string, blank: string, b: string)
    requires IsBlank(blank) && '\n' !in blank
    requires Contains(a, StoragePrefix) || Contains(b, StoragePrefix)
    ensures Decode(a + "\n" + blank + "\n" + b) == Decode(a + "\n" + b)
  {
    ContainsAroundBreak(a, "\n" + blank + "\n", b);
    assert a + ("\n" + blank + "\n") + b == a + "\n" + blank + "\n" + b;
    ContainsAroundBreak(a, "\n", b);
    NonBlankLinesSkipBlank(a, blank, b);
  }

  /** A stored path under the storage directory is served from the public
      directory under the same file name. */
  lemma StoredPathUrl(fileName: string)
    ensures ReplaceFirst(StoragePrefix + fileName, StoragePrefix, PublicPrefix)
      == PublicPrefix + fileName
  {
    ReplaceFirstOfPrefixed(StoragePrefix, fileName, PublicPrefix);
  }

  lemma NonBlankLinesAtBreak(msg: string, more: string)
    ensures NonBlankLines(msg + "\n" + more) == NonBlankLines(msg) + NonBlankLines(more)
  {
    assert msg + "\n" + more == msg + ['\n'] + more;
    SplitAtSeparator(msg, more, '\n');
    DropBlankAppend(Split(msg, '\n'), Split(more, '\n'));
  }

  lemma DecodeLinesIgnoresTail(lines: seq<string>, tail: seq<string>)
    requires |lines| >= 3
    ensures DecodeLines(lines + tail) == DecodeLines(lines)
  {
    var all := lines + tail;
    assert all[0] == lines[0] && all[1] == lines[1] && all[2] == lines[2];
  }

  /** Lines after the third non-blank one are never looked at. */
  lemma DecodeIgnoresLaterLines(msg: string, more: string)
    requires Contains(msg, StoragePrefix) && |NonBlankLines(msg)| >= 3
    ensures Decode(msg + "\n" + more) == Decode(msg)
  {
    var whole := msg + "\n" + more;
    assert Contains(whole, StoragePrefix) by {
      ContainsInContext([], msg, "\n" + more, StoragePrefix);
      assert [] + msg + ("\n" + more) == whole;
    }
    NonBlankLinesAtBreak(msg, more);
    DecodeLinesIgnoresTail(NonBlankLines(msg), NonBlankLines(more));
    calc {
      Decode(whole);
      DecodeLines(NonBlankLines(whole));
      DecodeLines(NonBlankLines(msg) + NonBlankLines(more));
      DecodeLines(NonBlankLines(msg));
      Decode(msg);
    }
  }

  /** An attachment record on one line has no path line: decoding it throws. */
  lemma DecodeSingleLineAttachmentThrows(msg: string)
    requires Contains(msg, StoragePrefix) && '\n' !in msg
    ensures Decode(msg) == None
  {
    SplitWithoutSeparator(msg, '\n');
    NotBlankWhenHoldsPrefix(msg);
    assert NonBlankLines(msg) == [msg];
  }

  /** Round trip for text: a text message comes back with each line break
      replaced by `<br>` and nothing else changed; one without line breaks
      comes back as it was stored. */
  lemma DecodeText(msg: string)
    requires !Contains(msg, StoragePrefix)
    ensures Decode(msg) == Some(Text(Join(Split(msg, '\n'), "<br>")))
    ensures '\n' !in msg ==> Decode(msg) == Some(Text(msg))
  {
    ReplaceNewlinesIsSplitJoin(msg);
  }
}
