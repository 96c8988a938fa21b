/** Channels and their poller as objects, proved against the registry model. */
module Poller {
  import opened Interest

  class Channel {
    const fd: int
    var events: bv32
    var index: Index

    constructor (fd: int)
      ensures this.fd == fd && Value() == Watched(NONE_EVENT, New)
    {
      this.fd := fd;
      events, index := NONE_EVENT, New;
    }

    ghost function Value(): Watched
      reads this
    {
      Watched(events, index)
    }

    predicate IsWriting(): (writing: bool)
      reads this
      ensures writing <==> events & 0x4 != 0
    {
      WritingBit(events);
      Writing(events)
    }

    // A new mask, and update().
    method SetEvents(poller: Poller, mask: bv32)
      requires poller.Owns(this)
      modifies this, poller
      ensures poller.Valid() && poller.all == old(poller.all) && events == mask
      ensures poller.Value() == Update(old(poller.Value()), fd, mask)
    {
      hide Refresh;
      events := mask;
      poller.OneChannel(old(poller.Channels()), this);
      poller.UpdateChannel(this);
    }

    method EnableRead(poller: Poller)
      requires poller.Owns(this)
      modifies this, poller
      ensures poller.Valid() && poller.all == old(poller.all) && events == WithRead(old(events))
      ensures events & 0x1 != 0 && events & 0x2 != 0 && events & 0x4 == old(events) & 0x4
      ensures poller.Value() == Update(old(poller.Value()), fd, WithRead(old(events)))
    {
      hide WithRead;
      ReadSetsBoth(events, 0x1);
      ReadSetsBoth(events, 0x2);
      ReadSetsNoOther(events, 0x4);
      SetEvents(poller, WithRead(events));
    }

    method DisableRead(poller: Poller)
      requires poller.Owns(this)
      modifies this, poller
      ensures poller.Valid() && poller.all == old(poller.all) && events == WithoutRead(old(events))
      ensures events & 0x3 == 0 && events & 0x4 == old(events) & 0x4
      ensures poller.Value() == Update(old(poller.Value()), fd, WithoutRead(old(events)))
    {
      hide WithoutRead;
      ReadClearsBoth(events);
      ReadClearsNoOther(events, 0x4);
      SetEvents(poller, WithoutRead(events));
    }

    method EnableWrite(poller: Poller)
      requires poller.Owns(this)
      modifies this, poller
      ensures poller.Valid() && poller.all == old(poller.all) && events == WithWrite(old(events)) && IsWriting()
      ensures events & 0x4 != 0 && events & 0x3 == old(events) & 0x3
      ensures poller.Value() == Update(old(poller.Value()), fd, WithWrite(old(events)))
    {
      hide WithWrite, Writing;
      WriteOn(events);
      WriteSetsOne(events);
      WriteSetsNoOther(events, 0x3);
      SetEvents(poller, WithWrite(events));
    }

    method DisableWrite(poller: Poller)
      requires poller.Owns(this)
      modifies this, poller
      ensures poller.Valid() && poller.all == old(poller.all) && events == WithoutWrite(old(events)) && !IsWriting()
      ensures events & 0x4 == 0 && events & 0x3 == old(events) & 0x3
      ensures poller.Value() == Update(old(poller.Value()), fd, WithoutWrite(old(events)))
    {
      hide WithoutWrite, Writing;
      WriteOff(events);
      WriteClearsOne(events);
      WriteClearsNoOther(events, 0x3);
      SetEvents(poller, WithoutWrite(events));
    }

    method DisableAll(poller: Poller)
      requires poller.Owns(this)
      modifies this, poller
      ensures poller.Valid() && poller.all == old(poller.all) && events == NONE_EVENT
      ensures events == 0x0
      ensures poller.Value() == Update(old(poller.Value()), fd, NONE_EVENT)
    {
      SetEvents(poller, NONE_EVENT);
    }

    /** disableAll and remove, as connectionDestroyed does. */
    method TearDown(poller: Poller)
      requires poller.Owns(this) && Agree(poller.Value())
      modifies this, poller
      ensures poller.Valid() && poller.all == old(poller.all)
      ensures Agree(poller.Value()) && poller.Value() == TornDown(old(poller.Value()), fd)
      ensures Value() == Watched(NONE_EVENT, New)
    {
      TearDownTwice(poller.Value(), fd);
      DisableAll(poller);
      poller.RemoveChannel(this);
    }
  }

  /** `all` is every channel of the loop; `kernel` what epoll watches. */
  class Poller {
    var fdMap: map<int, Channel>
    ghost var all: map<int, Channel>
    ghost var kernel: map<int, bv32>

    ghost predicate Valid()
      reads this
    {
      && (forall fd | fd in all :: all[fd].fd == fd)
      && (forall fd | fd in fdMap :: fd in all && fdMap[fd] == all[fd])
    }

    ghost predicate Owns(c: Channel)
      reads this
    {
      Valid() && c.fd in all && all[c.fd] == c
    }

    ghost function Channels(): map<int, Watched>
      reads this`all, all.Values
    {
      map fd | fd in all :: all[fd].Value()
    }

    ghost function Value(): Registry
      reads this, all.Values
    {
      Registry(Channels(), fdMap.Keys, kernel)
    }

    constructor ()
      ensures Valid() && Value() == EMPTY
    {
      fdMap, all, kernel := map[], map[], map[];
    }

    /** A new channel comes under the loop, for a descriptor that the poller does not know any more. */
    ghost method Enter(channel: Channel)
      requires Valid() && Agree(Value()) && Legal(Value(), Create(channel.fd))
      requires channel.Value() == Watched(NONE_EVENT, New)
      modifies this`all
      ensures Owns(channel) && all == old(all)[channel.fd := channel]
      ensures Value() == Apply(old(Value()), Create(channel.fd)) && Agree(Value())
    {
      ApplyKeeps(Value(), Create(channel.fd));
      ghost var before := Channels();
      all := all[channel.fd := channel];
      assert Channels() == before[channel.fd := channel.Value()];
    }

    // Only `channel` is not as it was.
    ghost method OneChannel(before: map<int, Watched>, channel: Channel)
      requires Owns(channel) && before.Keys == all.Keys
      requires forall g | g in all && all[g] != channel :: before[g] == all[g].Value()
      ensures Channels() == before[channel.fd := channel.Value()]
    {
      var now, expected := Channels(), before[channel.fd := channel.Value()];
      assert now.Keys == expected.Keys;
      forall g | g in all ensures now[g] == expected[g] {
        assert g != channel.fd ==> all[g] != channel;
      }
    }

    method UpdateChannel(channel: Channel)
      requires Owns(channel)
      modifies this`fdMap, this`kernel, channel`index
      ensures Valid() && Value() == Refresh(old(Value()), channel.fd)
    {
      hide Refresh;
      if channel.index == New || channel.index == Deleted {
        Watch(channel);
      } else {
        Rewatch(channel);
      }
    }

    // A channel that is not watched: added, whatever its mask.
    method Watch(channel: Channel)
      requires Owns(channel) && channel.index != Added
      modifies this`fdMap, this`kernel, channel`index
      ensures Valid() && Value() == Refresh(old(Value()), channel.fd)
    {
      hide EdgeTriggered, Controlled;
      ghost var known := fdMap.Keys;
      if channel.index == New {
        fdMap := fdMap[channel.fd := channel];
        assert fdMap.Keys == known + {channel.fd};
      }
      kernel := Controlled(kernel, Add, channel.fd, channel.events);
      SetIndex(channel, Added);
    }

    // A watched channel: its mask changed, or not watched any more when the mask is empty.
    method Rewatch(channel: Channel)
      requires Owns(channel) && channel.index == Added
      modifies this`kernel, channel`index
      ensures Valid() && Value() == Refresh(old(Value()), channel.fd)
    {
      hide EdgeTriggered, Controlled;
      if channel.events == NONE_EVENT {
        kernel := Controlled(kernel, Delete, channel.fd, channel.events);
        SetIndex(channel, Deleted);
      } else {
        kernel := Controlled(kernel, Modify, channel.fd, channel.events);
        assert Channels() == Channels()[channel.fd := channel.Value()];
      }
    }

    method SetIndex(channel: Channel, index: Index)
      requires Owns(channel)
      modifies channel`index
      ensures Valid() && channel.index == index && Channels() == old(Channels())[channel.fd := channel.Value()]
    {
      channel.index := index;
      OneChannel(old(Channels()), channel);
    }

    method RemoveChannel(channel: Channel)
      requires Owns(channel) && Legal(Value(), Take(channel.fd))
      modifies this, channel
      ensures Valid() && all == old(all) && channel.events == old(channel.events) && channel.index == New
      ensures Value() == Remove(old(Value()), channel.fd)
    {
      var fd := channel.fd;
      fdMap := fdMap - {fd};
      if channel.index == Added {
        kernel := Controlled(kernel, Delete, fd, channel.events);
      }
      SetIndex(channel, New);
    }
  }
}
