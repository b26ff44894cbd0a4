/** The stream reader's controller as the object the source has, proved against module LogPipeline. */
module RedisControllers {
  import opened LogCodec
  import opened LogPipeline

  class RedisCntrl {
    var stream: seq<Entry> // the stream on the server
    var successConnect: bool
    var maxReadCount: int
    var prevReadIds: seq<nat>
    var sendMsgChan: seq<seq<LogMessage>>
    ghost var handed: seq<Entry> // all entries read

    constructor ()
      ensures Value() == EMPTY.reader && !successConnect
    {
      stream, successConnect, maxReadCount, prevReadIds, sendMsgChan, handed := [], false, 0, [], [], [];
    }

    ghost function Value(): (r: Reader)
      reads this
    {
      Reader(stream, prevReadIds, handed, sendMsgChan)
    }

    /** The server carries the deletion out or not, and its answer may get lost. */
    method DelLogsFromStream(del: Deletion) returns (ok: bool)
      modifies this`stream
      ensures ok <==> successConnect && del == Deleted
      ensures stream == if successConnect && del != Refused then XDel(old(stream), prevReadIds) else old(stream)
    {
      if successConnect {
        if del != Refused {
          stream := XDel(stream, prevReadIds);
        }
        return del == Deleted;
      }
      return false;
    }

    method ReadLogsFromStream(readOk: bool) returns (ok: bool, msgs: seq<LogMessage>)
      modifies this`prevReadIds, this`handed
      ensures ok <==> successConnect && readOk
      ensures var entries := if ok then XRead(stream, maxReadCount) else [];
              && msgs == Parsed(entries)
              && prevReadIds == old(prevReadIds) + Ids(entries) && handed == old(handed) + entries
    {
      hide Parsed, Ids, XRead, ParsedEntry;
      msgs := [];
      if successConnect {
        var entries := if readOk then XRead(stream, maxReadCount) else [];
        WholeAndNothing(old(prevReadIds), entries);
        for i := 0 to |entries|
          invariant Parsed(entries) == msgs + Parsed(entries[i..])
          invariant prevReadIds == old(prevReadIds) + Ids(entries[..i])
          invariant handed == old(handed)
        {
          OneMoreRead(msgs, old(prevReadIds), entries, i);
          prevReadIds := prevReadIds + [entries[i].id];
          var logMsg := ParseEntry(entries[i]);
          msgs := msgs + logMsg;
        }
        handed := handed + entries;
        return readOk, msgs;
      }
      WholeAndNothing(old(prevReadIds), []);
      return false, msgs;
    }

    /** The record of an entry, or nothing. */
    static method ParseEntry(e: Entry) returns (logMsg: seq<LogMessage>)
      ensures logMsg == ParsedEntry(e)
    {
      if e.value.Some? {
        var lm := UnmarshalFromString(e.value.value);
        if lm.Success? {
          return [lm.value];
        }
      }
      return [];
    }

    lemma WholeAndNothing(ids: seq<nat>, entries: seq<Entry>)
      ensures entries[0..] == entries && entries[..0] == entries[|entries|..] == [] && entries[..|entries|] == entries
      ensures Parsed([]) == [] && Ids([]) == [] && ids + [] == ids
    {
    }

    lemma OneMoreRead(msgs: seq<LogMessage>, ids: seq<nat>, entries: seq<Entry>, i: nat)
      requires i < |entries|
      ensures msgs + Parsed(entries[i..]) == (msgs + ParsedEntry(entries[i])) + Parsed(entries[i + 1..])
      ensures ids + Ids(entries[..i + 1]) == (ids + Ids(entries[..i])) + [entries[i].id]
    {
      hide ParsedEntry;
      assert entries[i..][1..] == entries[i + 1..];
      assert Ids(entries[..i + 1]) == Ids(entries[..i]) + [entries[i].id];
      Assoc(msgs, ParsedEntry(entries[i]), Parsed(entries[i + 1..]));
    }

    /** One request for logs: delete what was read before, then read and pass on what the head of the stream holds. */
    method OnRequest(del: Deletion, readOk: bool)
      modifies this
      ensures successConnect == old(successConnect) && maxReadCount == old(maxReadCount)
      ensures Value() == Requested(old(Value()), if successConnect then del else Refused, successConnect && readOk,
                                   maxReadCount)
    {
      if |prevReadIds| > 0 {
        var deleted := DelLogsFromStream(del);
        if deleted {
          prevReadIds := [];
        }
      }
      var ok, msgs := ReadLogsFromStream(readOk);
      if ok && |msgs| > 0 {
        sendMsgChan := sendMsgChan + [msgs];
      }
    }
  }
}
