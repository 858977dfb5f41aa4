/** The reading members of `Session` as they change in place, proved to be the reader of module
    Receiver. */
module SessionReader {
  import opened Frames
  import opened Receiver
  import opened Wrappers

  class Reader {
    const data: array<Byte>       // _data: the bytes of the part being read
    const headNode: array<Byte>   // _recv_head_node
    var bodyNode: array<Byte>     // _recv_data_node
    var msgId: Word
    var readLen: nat
    var total: nat
    var inBody: bool
    var closed: bool
    var posted: seq<Msg>
    var lastHeartbeat: int
    ghost var calls: seq<Call>    // what the callbacks called on the server

    ghost predicate Valid()
      reads this
    {
      && data.Length == MAX_LENGTH && headNode.Length == HEAD_TOTAL_LEN
      && data != headNode && bodyNode != data && bodyNode != headNode
      && readLen <= total <= MAX_LENGTH
      && (!inBody ==> total == HEAD_TOTAL_LEN)
      && (inBody ==> bodyNode.Length == total + 1)
    }

    /** The abstract phase. */
    ghost function View(): Phase
      requires Valid()
      reads this, data
    {
      if closed then Closed
      else if inBody then Body(msgId, total, data[..readLen])
      else Header(data[..readLen])
    }

    /** The connection; `listed` is what the server says. */
    ghost function Abs(listed: bool): Conn
      requires Valid()
      reads this, data
    {
      Conn(View(), posted, listed, calls)
    }

    constructor (now: int)
      ensures Valid() && Abs(true) == START && lastHeartbeat == now
      ensures fresh(data) && fresh(headNode) && fresh(bodyNode)
    {
      data := new Byte[MAX_LENGTH](_ => 0);
      headNode := new Byte[HEAD_TOTAL_LEN](_ => 0);
      bodyNode := new Byte[1](_ => 0);
      msgId, readLen, total, inBody, closed, posted := 0, 0, HEAD_TOTAL_LEN, false, false, [];
      lastHeartbeat, calls := now, [];
    }

    /** `AsyncReadFull`: the buffer is cleared and a read of `n` bytes is started. */
    method AsyncReadFull(n: nat)
      requires data.Length == MAX_LENGTH && n <= MAX_LENGTH
      modifies this`readLen, this`total, data
      ensures readLen == 0 && total == n
      ensures forall i :: 0 <= i < data.Length ==> data[i] == 0
    {
      for i := 0 to data.Length
        modifies data
        invariant forall j :: 0 <= j < i ==> data[j] == 0
      {
        data[i] := 0;
      }
      readLen, total := 0, n;
    }

    /** The callback closes the socket and makes a call. */
    method End(call: Call) returns (done: Option<Call>)
      requires Valid()
      modifies this`closed, this`calls
      ensures Valid() && closed && done == Some(call) && calls == old(calls) + [call]
    {
      closed := true;
      calls := calls + [call];
      done := Some(call);
    }

    /** Either callback with an error. */
    method OnReadError() returns (call: Option<Call>)
      requires Valid() && !closed
      modifies this`closed, this`calls
      ensures Valid() && call == Some(TearDown)
      ensures forall listed, locked :: Abs(listed && !locked) == Receiver.Apply(old(Abs(listed)), Fail(locked))
    {
      call := End(TearDown);
    }

    /** `HandleReadHead`. */
    method HandleReadHead(listed: bool) returns (call: Option<Call>)
      requires Valid() && !inBody && !closed && readLen == total
      modifies this, data, headNode
      ensures Valid() && (bodyNode == old(bodyNode) || fresh(bodyNode)) && lastHeartbeat == old(lastHeartbeat)
      ensures Abs(listed && call != Some(Clear)) == HandleHead(old(Abs(listed)), old(data[..HEAD_TOTAL_LEN]))
      ensures call == Some(TearDown) <==> !listed
      ensures call == Some(Clear) <==> listed && HeadLen(old(data[..HEAD_TOTAL_LEN])) > 2048
    {
      if !listed {
        call := End(TearDown);
        return;
      }
      ghost var head := data[..HEAD_TOTAL_LEN];
      for i := 0 to HEAD_TOTAL_LEN
        modifies headNode
        invariant headNode[..i] == head[..i]
      {
        headNode[i] := data[i];
      }
      var id := FromNet(headNode[0], headNode[1]);
      var len := FromNet(headNode[2], headNode[3]);
      if len > MAX_LENGTH {
        call := End(Clear);
        return;
      }
      msgId, inBody := id, true;
      bodyNode := new Byte[len + 1](_ => 0);
      AsyncReadFull(len);
      call := None;
    }

    /** `HandleReadData`: the message goes to the logic queue and the next header is read. */
    method HandleReadData(listed: bool, now: int) returns (call: Option<Call>)
      requires Valid() && inBody && !closed && readLen == total
      modifies this, data, headNode, bodyNode
      ensures Valid() && bodyNode == old(bodyNode)
      ensures Abs(listed) == HandleBody(old(Abs(listed)), old(msgId), old(data[..readLen]))
      ensures call == if listed then None else Some(TearDown)
      ensures lastHeartbeat == if listed then now else old(lastHeartbeat)
    {
      if !listed {
        call := End(TearDown);
        return;
      }
      lastHeartbeat := now;
      for i := 0 to total
        modifies bodyNode
        invariant bodyNode[..i] == data[..i]
      {
        bodyNode[i] := data[i];
      }
      assert bodyNode[..total] == old(data[..readLen]);
      posted := posted + [Msg(msgId, bodyNode[..total])];
      for i := 0 to HEAD_TOTAL_LEN
        modifies headNode
      {
        headNode[i] := 0;
      }
      inBody := false;
      AsyncReadFull(HEAD_TOTAL_LEN);
      call := None;
    }

    /** One completion of `async_read_some`: some bytes of the part that is being read. */
    method OnReadSome(chunk: seq<Byte>, listed: bool, now: int) returns (call: Option<Call>)
      requires Valid() && !closed && |chunk| <= total - readLen
      modifies this, data, headNode, bodyNode
      ensures Valid() && (bodyNode == old(bodyNode) || fresh(bodyNode))
      ensures Abs(listed && call != Some(Clear)) == OnBytes(old(Abs(listed)), chunk)
      ensures call == Some(TearDown) <==> |chunk| == old(total - readLen) && !listed
      ensures call == Some(Clear) <==>
                && |chunk| == old(total - readLen) && listed && !old(inBody)
                && HeadLen(old(data[..readLen]) + chunk) > 2048
      ensures lastHeartbeat ==
              if |chunk| == old(total - readLen) && listed && old(inBody) then now else old(lastHeartbeat)
    {
      ghost var have := data[..readLen];
      for i := 0 to |chunk|
        modifies data
        invariant data[..readLen + i] == have + chunk[..i]
      {
        data[readLen + i] := chunk[i];
      }
      assert chunk[..|chunk|] == chunk;
      readLen := readLen + |chunk|;
      if readLen < total {
        return None;
      }
      if inBody {
        call := HandleReadData(listed, now);
      } else {
        call := HandleReadHead(listed);
      }
    }
  }
}
