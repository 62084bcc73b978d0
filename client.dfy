/**
 * The main form's connection handling on the heap: the `_client` field, the
 * `WebSocket` objects it refers to, and the `OpenClient` / `OnApplicationExit`
 * methods that replace and clear it. Each method is proved against the value
 * model in `Slot`.
 */
module Client {
  import opened Wrappers
  import Slot

  /**
   * The part of a WebSocketSharp `WebSocket` the form touches: the URL it
   * was created for, how many times the form's message and error handlers
   * are registered on its events, and whether `Close()` and `Connect()` were
   * called. `id` is its position in creation order.
   */
  class WebSocket {
    ghost const id: nat
    const url: string
    var onMessage: nat
    var onError: nat
    var closed: bool
    var connectCalled: bool

    constructor (url: string, ghost id: nat)
      ensures this.url == url && this.id == id
      ensures View() == Slot.Conn(url, 0, 0, false, false)
    {
      this.url := url;
      this.id := id;
      onMessage, onError, closed, connectCalled := 0, 0, false, false;
    }

    ghost function View(): Slot.Conn
      reads this
    {
      Slot.Conn(url, onMessage, onError, closed, connectCalled)
    }

    /** `OnMessage += OnRecievedMessage` */
    method SubscribeMessage()
      modifies this
      ensures onMessage == old(onMessage) + 1
      ensures onError == old(onError) && closed == old(closed) && connectCalled == old(connectCalled)
    {
      onMessage := onMessage + 1;
    }

    /** `OnMessage -= OnRecievedMessage` */
    method UnsubscribeMessage()
      modifies this
      ensures onMessage == Slot.Unsubscribe(old(onMessage))
      ensures onError == old(onError) && closed == old(closed) && connectCalled == old(connectCalled)
    {
      if onMessage > 0 { onMessage := onMessage - 1; }
    }

    /** `OnError += OnError` */
    method SubscribeError()
      modifies this
      ensures onError == old(onError) + 1
      ensures onMessage == old(onMessage) && closed == old(closed) && connectCalled == old(connectCalled)
    {
      onError := onError + 1;
    }

    /** `OnError -= OnError` */
    method UnsubscribeError()
      modifies this
      ensures onError == Slot.Unsubscribe(old(onError))
      ensures onMessage == old(onMessage) && closed == old(closed) && connectCalled == old(connectCalled)
    {
      if onError > 0 { onError := onError - 1; }
    }

    /** `Close()`: the transport stops delivering events. */
    method Close()
      modifies this
      ensures closed
      ensures onMessage == old(onMessage) && onError == old(onError) && connectCalled == old(connectCalled)
    {
      closed := true;
    }

    /** `Connect()`: the network handshake itself is not modelled. */
    method Connect()
      modifies this
      ensures connectCalled
      ensures onMessage == old(onMessage) && onError == old(onError) && closed == old(closed)
    {
      connectCalled := true;
    }
  }

  /** The abstract views of a sequence of connections. */
  ghost function Views(h: seq<WebSocket>): (v: seq<Slot.Conn>)
    reads h
  {
    seq(|h|, i reads h requires 0 <= i < |h| => h[i].View())
  }

  class MainForm {
    /** `_client`: the connection the form holds, or `null`. */
    var client: WebSocket?
    /** Every connection the form has created, oldest first. */
    ghost var history: seq<WebSocket>

    ghost function Model(): Slot.State
      reads this, history
    {
      Slot.State(if client == null then None else Some(client.id), Views(history))
    }

    ghost predicate Valid()
      reads this, history
    {
      (forall i :: 0 <= i < |history| ==> history[i].id == i) &&
      (client != null ==> client.id < |history| && history[client.id] == client) &&
      Slot.Inv(Model())
    }

    constructor ()
      ensures Valid() && Model() == Slot.Initial
    {
      client := null;
      history := [];
    }

    /** Replace the held connection by a new one for `url` (`Settings.Default.Url`). */
    method OpenClient(url: string)
      requires Valid()
      modifies this, client
      ensures Valid()
      ensures Model() == Slot.Open(old(Model()), url)
      ensures client != null && fresh(client) && client.url == url
      ensures history == old(history) + [client]
      ensures forall e :: Slot.Subscribers(Model().conns, e) == 1
    {
      ghost var before := Model();
      ghost var retired := before.conns;
      if client != null {
        ghost var i := client.id;
        client.UnsubscribeMessage();
        client.UnsubscribeError();
        client.Close();
        retired := before.conns[i := Slot.Retire(before.conns[i])];
        assert Views(history) == retired by {
          forall j | 0 <= j < |history| ensures history[j].View() == retired[j] {
            if j != i { assert history[j].id != client.id; }
          }
        }
      }
      ghost var n := |history|;
      client := new WebSocket(url, n);
      history := history + [client];
      client.SubscribeMessage();
      client.SubscribeError();
      client.Connect();
      ghost var after := retired + [Slot.Opened(url)];
      assert Views(history) == after by {
        assert client.View() == Slot.Opened(url);
        forall j | 0 <= j < n ensures history[j].View() == after[j] {
          assert history[j] != client;
        }
        assert history[n] == client;
      }
      assert Slot.Open(before, url) == Slot.State(Some(n), after);
      assert Model() == Slot.Open(before, url);
      Slot.OpenKeepsInv(before, url);
      assert forall j :: 0 <= j < |history| ==> history[j].id == j by {
        forall j | 0 <= j < |history| ensures history[j].id == j {
          if j < n { assert history[j] == old(history)[j]; }
        }
      }
      Slot.OpenHoldsExactlyOne(before, url);
    }

    /** Close and clear the held connection, if any. */
    method OnApplicationExit()
      requires Valid()
      modifies this, client
      ensures Valid()
      ensures Model() == Slot.Exit(old(Model()))
      ensures client == null && history == old(history)
      ensures forall e :: Slot.Subscribers(Model().conns, e) == 0
    {
      ghost var before := Model();
      if client != null {
        client.Close();
        client := null;
      }
      assert Model() == Slot.Exit(before);
      Slot.ExitSilences(before);
    }
  }
}
