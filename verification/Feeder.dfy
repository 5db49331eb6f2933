/** DataBrokerFeederImpl of data_broker_feeder.cc: the operations on its maps and flags. The
    value type is a parameter because the feeder never looks into a value. */
module Feeder {
  import opened Options

  type Values<V> = map<string, V>

  /** A configured datapoint. */
  datatype Datapoint<V> = Datapoint(name: string, dataType: int, initial: V)

  datatype Metadata = Metadata(id: int, dataType: int)

  /** gRPC status codes as far as the feeder tells them apart. */
  datatype Code = INTERNAL | UNAUTHENTICATED | UNIMPLEMENTED | OTHER(code: int)

  predicate Unrecoverable(code: Code) {
    code.INTERNAL? || code.UNAUTHENTICATED? || code.UNIMPLEMENTED?
  }

  ghost function Names<V>(config: seq<Datapoint<V>>): set<string> {
    set d | d in config :: d.name
  }

  /** The initial values by name; of two entries for a name the first one counts. */
  function Initials<V>(config: seq<Datapoint<V>>): (m: Values<V>)
    ensures m.Keys == Names(config)
  {
    if |config| == 0 then map[]
    else
      assert config == [config[0]] + config[1..];
      Initials(config[1..])[config[0].name := config[0].initial]
  }

  /** The first entry for a name gives its initial value; with distinct names every entry does. */
  lemma {:induction false} InitialOf<V>(config: seq<Datapoint<V>>, i: nat)
    requires i < |config| && forall j :: 0 <= j < i ==> config[j].name != config[i].name
    ensures config[i].name in Initials(config) && Initials(config)[config[i].name] == config[i].initial
  {
    if i > 0 {
      InitialOf(config[1..], i - 1);
    }
  }

  /** `batch` with the values of `extra` for names it does not have. */
  function WithMissing<V>(batch: Values<V>, extra: Values<V>): Values<V> {
    extra + batch
  }

  /** Offering one value first is the same as having it among the missing ones. */
  lemma OfferFirst<V>(batch: Values<V>, name: string, value: V, extra: Values<V>)
    ensures WithMissing(if name in batch then batch else batch[name := value], extra) ==
            WithMissing(batch, extra[name := value])
  {}

  ghost predicate AllRegistered<V>(config: seq<Datapoint<V>>, meta: map<string, Metadata>) {
    forall d :: d in config ==> d.name in meta && meta[d.name].dataType == d.dataType
  }

  function Ids(meta: map<string, Metadata>): map<string, int> {
    map n | n in meta :: meta[n].id
  }

  /** The part of a batch that reaches the broker: names without an id are left out. */
  function Known<V>(batch: Values<V>, ids: map<string, int>): Values<V> {
    map n | n in batch && n in ids :: batch[n]
  }

  class DataBrokerFeeder<V> {
    const config: seq<Datapoint<V>>
    var stored: Values<V>
    var ids: map<string, int>
    var meta: map<string, Metadata>
    var active: bool
    var ready: bool
    var connected: bool  // of the client, which the subscriber shares

    constructor (config: seq<Datapoint<V>>)
      ensures this.config == config && active && !ready && !connected
      ensures stored == map[] && ids == map[] && meta == map[]
    {
      this.config := config;
      stored, ids, meta := map[], map[], map[];
      active, ready, connected := true, false, false;
    }

    method StoreValue(name: string, value: V)
      modifies this`stored
      ensures stored == old(stored)[name := value]
    {
      stored := stored[name := value];
    }

    method StoreValues(values: Values<V>)
      modifies this`stored
      ensures stored == old(stored) + values
    {
      var todo := values.Keys;
      while todo != {}
        invariant todo <= values.Keys
        invariant stored == old(stored) + (values - todo)
        decreases todo
      {
        var name :| name in todo;
        StoreValue(name, values[name]);
        todo := todo - {name};
      }
      assert values - {} == values;
    }

    method FeedValue(name: string, value: V)
      modifies this`stored
      ensures stored == if active then old(stored) + map[name := value] else old(stored)
    {
      if active {
        StoreValue(name, value);
      }
    }

    method FeedValues(values: Values<V>)
      modifies this`stored
      ensures stored == if active then old(stored) + values else old(stored)
    {
      if active {
        StoreValues(values);
      }
    }

    /** The loop that offers every configured initial value to a batch. */
    method InsertInitials(batch: Values<V>) returns (full: Values<V>)
      ensures full == WithMissing(batch, Initials(config))
    {
      full := batch;
      var i := 0;
      while i < |config|
        invariant 0 <= i <= |config|
        invariant WithMissing(full, Initials(config[i..])) == WithMissing(batch, Initials(config))
      {
        assert config[i..][0] == config[i] && config[i..][1..] == config[i + 1..];
        OfferFirst(full, config[i].name, config[i].initial, Initials(config[i + 1..]));
        if config[i].name !in full {
          full := full[config[i].name := config[i].initial];
        }
        i := i + 1;
      }
    }

    /** feedStoredValues up to the RPC: take everything stored, top it up on request. */
    method TakeBatch(alsoInitial: bool) returns (batch: Values<V>)
      modifies this`stored
      ensures stored == map[]
      ensures batch == WithMissing(old(stored), if alsoInitial then Initials(config) else map[])
    {
      batch, stored := stored, map[];
      if alsoInitial {
        batch := InsertInitials(batch);
      }
    }

    /** Re-store a failed batch; values stored meanwhile are newer and stay. */
    method RestoreValues(batch: Values<V>)
      modifies this`stored
      ensures stored == WithMissing(old(stored), batch)
    {
      var todo := batch.Keys;
      while todo != {}
        invariant todo <= batch.Keys
        invariant stored == WithMissing(old(stored), batch - todo)
        decreases todo
      {
        var name :| name in todo;
        if name !in stored {
          stored := stored[name := batch[name]];
        }
        todo := todo - {name};
      }
      assert batch - {} == batch;
    }

    /** feedToBroker up to the RPC. With distinct ids the request carries the known part of
        the batch and nothing else. */
    method BuildRequest(batch: Values<V>) returns (request: map<int, V>)
      ensures forall id :: id in request ==> exists n :: n in batch && n in ids && ids[n] == id && request[id] == batch[n]
      ensures forall n :: n in batch && n in ids ==> ids[n] in request
      ensures (forall n, m :: n in batch && m in batch && n in ids && m in ids && ids[n] == ids[m] ==> n == m) ==>
                forall n :: n in Known(batch, ids) ==> request[ids[n]] == batch[n]
    {
      request := map[];
      var todo := batch.Keys;
      while todo != {}
        invariant todo <= batch.Keys
        invariant forall id :: id in request ==> exists n :: n in batch && n in ids && ids[n] == id && request[id] == batch[n]
        invariant forall n :: n in batch && n !in todo && n in ids ==> ids[n] in request
        decreases todo
      {
        var name :| name in todo;
        if name in ids {
          request := request[ids[name] := batch[name]];
        }
        todo := todo - {name};
      }
    }

    method HandleError(code: Code)
      modifies this`active, this`connected
      ensures active == (old(active) && !Unrecoverable(code)) && !connected
    {
      match code {
        case INTERNAL => active := false;
        case UNAUTHENTICATED => active := false;
        case UNIMPLEMENTED => active := false;
        case OTHER(_) =>
      }
      connected := false;
    }

    /** getMetadata: `reply` is None when the call fails with `code`; without configured
        datapoints there is no call. */
    method GetMetadata(reply: Option<map<string, Metadata>>, code: Code) returns (ok: bool)
      modifies this`meta, this`active, this`connected
      ensures meta == if config != [] && reply.Some? then old(meta) + reply.value else old(meta)
      ensures ok == (config != [] && reply.Some?)
      ensures active == (old(active) && !(config != [] && reply.None? && Unrecoverable(code)))
      ensures connected == (old(connected) && (config == [] || reply.Some?))
    {
      if |config| == 0 {
        return false;
      }
      if reply.Some? {
        meta := meta + reply.value;
        return true;
      }
      HandleError(code);
      return false;
    }

    method CheckDatapoints(reply: Option<map<string, Metadata>>, code: Code) returns (ok: bool)
      modifies this`meta, this`active, this`connected
      ensures meta == if config != [] && reply.Some? then old(meta) + reply.value else old(meta)
      ensures active == (old(active) && !(config != [] && reply.None? && Unrecoverable(code)))
      ensures connected == (old(connected) && (config == [] || reply.Some?))
      ensures ok <==> AllRegistered(config, meta)
    {
      var _ := GetMetadata(reply, code);
      ok := true;
      var i := 0;
      while i < |config|
        invariant 0 <= i <= |config|
        invariant ok <==> AllRegistered(config[..i], meta)
      {
        var dp := config[i];
        assert config[..i + 1] == config[..i] + [dp];
        if dp.name !in meta {
          ok := false;
        } else if dp.dataType != meta[dp.name].dataType {
          ok := false;
        }
        i := i + 1;
      }
      assert config[..|config|] == config;
    }

    method CopyIds()
      modifies this`ids
      ensures ids == old(ids) + Ids(meta)
    {
      var todo := meta.Keys;
      while todo != {}
        invariant todo <= meta.Keys
        invariant ids == old(ids) + Ids(meta - todo)
        decreases todo
      {
        var name :| name in todo;
        ids := ids[name := meta[name].id];
        todo := todo - {name};
      }
      assert meta - {} == meta;
    }

    /** registerDatapoints, first half: if the broker knows all datapoints already, take their
        ids from the metadata. */
    method AdoptRegistered(reply: Option<map<string, Metadata>>, code: Code) returns (registered: bool)
      modifies this`meta, this`active, this`connected, this`ids
      ensures meta == if config != [] && reply.Some? then old(meta) + reply.value else old(meta)
      ensures active == (old(active) && !(config != [] && reply.None? && Unrecoverable(code)))
      ensures connected == (old(connected) && (config == [] || reply.Some?))
      ensures registered <==> AllRegistered(config, meta)
      ensures ids == if registered then old(ids) + Ids(meta) else old(ids)
    {
      registered := CheckDatapoints(reply, code);
      if registered {
        CopyIds();
      }
    }

    /** registerDatapoints, second half: register them. */
    method Register(reply: Option<map<string, int>>, code: Code) returns (ok: bool)
      modifies this`active, this`connected, this`ids
      ensures ok == reply.Some?
      ensures ids == if ok then reply.value else old(ids)
      ensures active == (old(active) && (ok || !Unrecoverable(code))) && connected == (old(connected) && ok)
    {
      if reply.Some? {
        ids := reply.value;
        return true;
      }
      HandleError(code);
      return false;
    }

    /** registerDatapoints; the two replies answer GetMetadata and RegisterDatapoints. On
        success every configured name has an id if the broker's registration reply covers them. */
    method RegisterDatapoints(metaReply: Option<map<string, Metadata>>, metaCode: Code,
                              idReply: Option<map<string, int>>, idCode: Code) returns (ok: bool)
      modifies this`meta, this`active, this`connected, this`ids
      ensures ok <==> AllRegistered(config, meta) || idReply.Some?
      ensures AllRegistered(config, meta) ==> ids == old(ids) + Ids(meta)
      ensures !AllRegistered(config, meta) ==> ids == if idReply.Some? then idReply.value else old(ids)
      ensures ok && (idReply.Some? ==> Names(config) <= idReply.value.Keys) ==> Names(config) <= ids.Keys
      ensures meta == if config != [] && metaReply.Some? then old(meta) + metaReply.value else old(meta)
      ensures active == (old(active) && !(config != [] && metaReply.None? && Unrecoverable(metaCode)) && (ok || !Unrecoverable(idCode)))
      ensures connected == (old(connected) && ok && (config == [] || metaReply.Some?))
    {
      ok := AdoptRegistered(metaReply, metaCode);
      if !ok {
        ok := Register(idReply, idCode);
      }
    }

    method Cleanup()
      modifies this`ids, this`meta, this`ready
      ensures ids == map[] && meta == map[] && !ready
    {
      ids := map[];
      meta := map[];
      ready := false;
    }

    method Shutdown()
      modifies this`stored, this`active
      ensures !active && stored == if old(active) then map[] else old(stored)
    {
      if active {
        stored := map[];
        active := false;
      }
    }
  }
}
