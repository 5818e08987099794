/**
 * A client of the TcpClient classes: one connection shared by a transmit and
 * a receive worker, driven through a refused connect, sends and receives, and disconnect. What is
 * asserted here follows from the methods' specifications alone.
 */
module Scenarios {
  import opened Wrappers
  import opened Ascii
  import opened ClientSpec
  import opened TcpClient

  method SharedConnection(fd: nat, chunk: seq<byte>)
    requires chunk != []
  {
    var conn := new TcpClientSock("127.0.0.1", 5000);
    var inbound := new InboundQueue();
    var tx := new TcpClientThread(Tx, "127.0.0.1", 5000, conn, null);
    var rx := new TcpClientThread(Rx, "127.0.0.1", 5000, conn, inbound);
    assert tx.autoconnect && !rx.autoconnect;

    // A refused connection records the error and stays down.
    conn.Connect(ConnectFailed("[Errno 111] Connection refused"));
    assert !conn.connected && conn.sock == None;
    assert conn.lastError == Some("[Errno 111] Connection refused");

    // A payload of the wrong type raises without touching the connection.
    var result, sent := tx.Send(OtherType("int"), SendOk);
    assert result == Raised(NotStrOrBytes("int")) && sent == None && !conn.connected;

    // While down, a send is dropped and reported as False.
    result, sent := tx.Send(Bytes(chunk), SendOk);
    assert result == Returned(false) && sent == None;

    // Once connected, "hello" goes out as exactly its five ASCII bytes.
    conn.Connect(ConnectOk(Socket(fd)));
    assert conn.connected && conn.lastError == None;
    result, sent := tx.Send(Str("hello"), SendOk);
    assert result == Returned(true);
    assert sent.Some? && sent.value.socket == Socket(fd) && |sent.value.data| == 5;
    assert sent.value.data[0] == 104 && sent.value.data[4] == 111;

    // A timeout changes nothing; a chunk is queued; zero bytes drop the connection.
    var ok := rx.RunOnce(RecvTimeout);
    assert ok && conn.connected && inbound.items == [];
    ok := rx.RunOnce(Received(chunk));
    assert ok && inbound.items == [chunk];
    ok := rx.RunOnce(Received([]));
    assert !ok && !conn.connected && inbound.items == [chunk];
    assert conn.sock == Some(Socket(fd));

    // disconnect() is final: later connects change nothing.
    conn.Disconnect();
    conn.Connect(ConnectOk(Socket(fd + 1)));
    assert !conn.connected && conn.disconnected && conn.sock == None;
  }
}
