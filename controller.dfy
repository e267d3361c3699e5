/**
 * The player's session controller (the `Model` of src/js/controller/model.js): live playback
 * state, the binding to the active provider, and every side effect it has, in order.
 */
module Controller {
  import opened Wrappers
  import opened States
  import opened Playlist
  import opened Events
  import opened Config

  /** The type of a provider, as the registry hands it out; compared by value. */
  datatype ProviderTag = ProviderTag(name: string, hasInit: bool)

  /** A rendering container (a DOM element on the player's side). */
  datatype Container = Container(id: nat)

  /** A provider instance. Its internals are external; only its container is visible here. */
  class Provider {
    const tag: ProviderTag
    var container: Option<Container>

    constructor (tag: ProviderTag)
      ensures this.tag == tag && container == None
    {
      this.tag := tag;
      container := None;
    }
  }

  function ContainerOf(p: Provider?): Option<Container>
    reads p
  {
    if p == null then None else p.container
  }

  /** The calls the controller makes on a provider. */
  datatype ProviderCall =
    | RemoveGlobalListener
    | AddGlobalListener
    | Remove
    | SetContainer(container: Container)
    | Volume(level: int)
    | Mute(muted: bool)
    | Destroy
    | Pause
    | Play
    | Init(item: Item)

  /** One observable side effect of the controller. */
  datatype Effect =
    | Publish(event: Event)
    | Save(key: string, value: Value)
    | Invoke(target: Provider, call: ProviderCall)

  const EmptyPlaylistMessage := "Error loading playlist: No playable sources found"
  const NoProviderMessage := "No suitable provider found"

  /** The events a sequence of effects publishes, in order. */
  function Published(t: seq<Effect>): (r: seq<Event>)
    ensures r == [] <==> Silent(t)
  {
    if t == [] then []
    else (if t[0].Publish? then [t[0].event] else []) + Published(t[1..])
  }

  /** A sequence of effects that publishes no event. */
  predicate Silent(t: seq<Effect>) {
    forall i :: 0 <= i < |t| ==> !t[i].Publish?
  }

  lemma {:induction false} PublishedAppend(a: seq<Effect>, b: seq<Effect>)
    ensures Published(a + b) == Published(a) + Published(b)
  {
    if a != [] {
      assert (a + b)[1..] == a[1..] + b;
      PublishedAppend(a[1..], b);
    } else {
      assert a + b == b;
    }
  }

  /** A normalised playlist index, and whether it is reached by wrapping round to the start. */
  datatype Selection = Selection(item: int, repeat: bool)

  /**
   * The index `setItem` selects for a requested `index` in a playlist of `length` entries:
   * one past the end (or below -1) wraps to the first entry as a repeat, -1 (or further past
   * the end) means the last entry, anything else is kept.
   */
  function NormalizeIndex(index: int, length: nat): (r: Selection)
    ensures r.repeat <==> index == length || index < -1
    ensures r.repeat ==> r.item == 0
    ensures !r.repeat && (index == -1 || index > length) ==> r.item == length - 1
    ensures 0 <= index < length ==> r == Selection(index, false)
    ensures length > 0 ==> 0 <= r.item < length
  {
    if index == length || index < -1 then Selection(0, true)
    else if index == -1 || index > length then Selection(length - 1, false)
    else Selection(index, false)
  }

  /** The first source of entry `k`, absent when there is no such entry or it has no sources. */
  function FirstSource(entries: seq<Item>, k: int): (r: Option<Source>)
    ensures r.Some? <==> 0 <= k < |entries| && entries[k].sources != []
    ensures r.Some? ==> r.value == entries[k].sources[0]
  {
    if 0 <= k < |entries| && entries[k].sources != [] then Some(entries[k].sources[0]) else None
  }

  /** A call on the bound provider, if there is one. */
  function Tell(p: Provider?, c: ProviderCall): (r: seq<Effect>)
    ensures p == null ==> r == []
    ensures p != null ==> r == [Invoke(p, c)]
  {
    if p == null then [] else [Invoke(p, c)]
  }

  /** The item-initialisation hook, called only on providers that have one. */
  function InitCall(p: Provider, entry: Item): (r: seq<Effect>)
    ensures Silent(r)
    ensures r != [] <==> p.tag.hasInit
    ensures r == [] || r == [Invoke(p, Init(entry))]
  {
    if p.tag.hasInit then [Invoke(p, Init(entry))] else []
  }

  /** The calls that bind provider `p` in place of `previous`, whose container is `container`. */
  function BindCalls(previous: Provider?, container: Option<Container>, p: Provider, volume: int, mute: bool): (r: seq<Effect>)
    ensures Silent(r)
  {
    var detach :=
      if previous == null then []
      else [Invoke(previous, RemoveGlobalListener)]
           + (if container.Some? then [Invoke(previous, Remove), Invoke(p, SetContainer(container.value))] else []);
    detach + [Invoke(p, Volume(volume)), Invoke(p, Mute(mute)), Invoke(p, AddGlobalListener)]
  }

  /**
   * Binding order: the old listener is detached before anything else, the container is
   * handed over right after when there is one, and the new provider receives volume and
   * mute before its listener is attached, which is the last call.
   */
  lemma BindCallsOrder(previous: Provider?, container: Option<Container>, p: Provider, volume: int, mute: bool)
    ensures var r := BindCalls(previous, container, p, volume, mute);
      && |r| >= 3
      && r[|r| - 3..] == [Invoke(p, Volume(volume)), Invoke(p, Mute(mute)), Invoke(p, AddGlobalListener)]
      && (previous != null ==> r[0] == Invoke(previous, RemoveGlobalListener))
      && (previous != null && container.Some? ==>
            |r| == 6 && r[1..3] == [Invoke(previous, Remove), Invoke(p, SetContainer(container.value))])
      && (previous != null && container.None? ==> |r| == 4)
      && (previous == null ==> |r| == 3)
  {
  }

  /** The effects of `setVolume(v)` on a controller that is muted or not, with `p` bound. */
  function SetVolumeEffects(mute: bool, p: Provider?, v: int): (r: seq<Effect>)
    ensures Silent(r)
  {
    (if mute && v > 0 then [Save("mute", Flag(false))] + Tell(p, Mute(false)) else [])
    + (if !mute || v > 0 then [Save("volume", Number(v))] else [])
    + Tell(p, Volume(v))
  }

  /**
   * A positive volume unmutes first, the volume is saved exactly when the controller is not
   * muted after that step, and the bound provider is told the new volume last.
   */
  lemma SetVolumeEffectsOrder(mute: bool, p: Provider?, v: int)
    ensures var r := SetVolumeEffects(mute, p, v);
      && (Save("volume", Number(v)) in r <==> !(mute && v <= 0))
      && (Save("mute", Flag(false)) in r <==> mute && v > 0)
      && (mute && v > 0 ==> r[0] == Save("mute", Flag(false)))
      && (p != null ==> |r| > 0 && r[|r| - 1] == Invoke(p, Volume(v)))
  {
  }

  /** The effects of `setMute(s)` at volume `volume`, with `p` bound. */
  function SetMuteEffects(volume: int, s: bool, p: Provider?): (r: seq<Effect>)
    ensures Silent(r)
  {
    [Save("mute", Flag(s))]
    + (if s && volume == 0 then SetVolumeEffects(true, p, 20) else [])
    + Tell(p, Mute(s))
  }

  /**
   * Every `setMute` saves the mute setting first and tells the bound provider `s` last; a
   * volume of 20 is saved exactly when it mutes at volume 0.
   */
  lemma SetMuteEffectsOrder(volume: int, s: bool, p: Provider?)
    ensures var r := SetMuteEffects(volume, s, p);
      && |r| > 0 && r[0] == Save("mute", Flag(s))
      && (p != null ==> r[|r| - 1] == Invoke(p, Mute(s)))
      && (Save("volume", Number(20)) in r <==> s && volume == 0)
  {
  }

  /**
   * Muting at volume 0 with a provider bound: the mute setting is saved, `setVolume(20)`
   * unmutes again (saving that and telling the provider), saves and pushes volume 20, and
   * only then is the provider told to mute.
   */
  lemma MuteAtZeroEffects(p: Provider)
    ensures SetMuteEffects(0, true, p) ==
      [ Save("mute", Flag(true)),
        Save("mute", Flag(false)), Invoke(p, Mute(false)),
        Save("volume", Number(20)), Invoke(p, Volume(20)),
        Invoke(p, Mute(true)) ]
  {
  }

  /**
   * The item index a configuration starts with. The source copies any `item` value; one that
   * is not a number differs from every index, as `undefined` does, so both are `None` here.
   */
  function InitialItem(config: map<string, Value>): (r: Option<int>)
    ensures r.Some? <==> "item" in config && config["item"].Number?
    ensures r.Some? ==> r.value == config["item"].n
  {
    if "item" in config && config["item"].Number? then Some(config["item"].n) else None
  }

  class Model {
    const config: map<string, Value>
    /** The provider registry's `choose`. */
    const choose: Source -> Option<ProviderTag>

    var state: State
    var item: Option<int>
    var volume: int
    var mute: bool
    var fullscreen: bool
    var dragging: bool
    var position: real
    var duration: real
    var buffer: int
    var playlist: seq<Item>

    /** The provider whose events the controller listens to (`_provider`). */
    var provider: Provider?
    /** The provider `setItem` last constructed (`_currentProvider`). */
    var current: Provider?

    /** Every event published, cookie saved and provider call made, in order. */
    ghost var trace: seq<Effect>

    ghost predicate Valid()
      reads this
    {
      IsPublic(state)
    }

    constructor (saved: map<string, Value>, options: map<string, Value>,
                 serialize: Value -> Value, choose: Source -> Option<ProviderTag>)
      requires WellTyped(Serialized(Merge(Defaults(), saved, options), serialize))
      ensures Valid()
      ensures config == Serialized(Merge(Defaults(), saved, options), serialize)
      ensures this.choose == choose
      ensures volume == config["volume"].n && mute == config["mute"].b
      ensures fullscreen == config["fullscreen"].b && dragging == config["dragging"].b
      ensures item == InitialItem(config)
      ensures state == Idle && duration == -1.0 && position == 0.0 && buffer == 0 && playlist == []
      ensures provider == null && current == null && trace == []
    {
      var parsed := ParseConfig(Merge(Defaults(), saved, options), serialize);
      config := parsed;
      this.choose := choose;
      volume := parsed["volume"].n;
      mute := parsed["mute"].b;
      fullscreen := parsed["fullscreen"].b;
      dragging := parsed["dragging"].b;
      item := InitialItem(parsed);
      state := Idle;
      duration := -1.0;
      position := 0.0;
      buffer := 0;
      playlist := [];
      provider := null;
      current := null;
      trace := [];
    }

    /** Absorbs an event of the bound provider into live state and re-publishes it. */
    method VideoEventHandler(evt: Event)
      requires Valid()
      modifies this`state, this`mute, this`volume, this`buffer, this`position, this`duration, this`trace
      ensures Valid()
      ensures state == (if evt.PlayerStateChanged? then Collapse(evt.newstate) else old(state))
      ensures mute == (if evt.MediaMute? then evt.mute else old(mute))
      ensures volume == (if evt.MediaVolume? then evt.volume else old(volume))
      ensures buffer == (if evt.MediaBuffer? then evt.bufferPercent else old(buffer))
      ensures position == (if evt.MediaTime? then evt.position else old(position))
      ensures duration == (if evt.MediaTime? then evt.duration else old(duration))
      ensures trace == old(trace) + [Publish(Translate(evt))]
      ensures Published(trace) == Published(old(trace)) + [Translate(evt)]
    {
      var published := evt;
      match evt {
        case MediaMute(m) => mute := m;
        case MediaVolume(v) => volume := v;
        case PlayerStateChanged(s) =>
          published := PlayerStateChanged(Collapse(s));
          state := published.newstate;
        case MediaBuffer(b) => buffer := b;
        case MediaTime(pos, dur) =>
          position := pos;
          duration := dur;
        case _ =>
      }
      PublishedAppend(trace, [Publish(published)]);
      trace := trace + [Publish(published)];
    }

    /** Binds `p` as the provider, taking over the old provider's container. */
    method SetVideoProvider(p: Provider)
      modifies this`provider, this`trace, p`container
      ensures provider == p
      ensures p.container == (if old(ContainerOf(provider)).Some? then old(ContainerOf(provider)) else old(p.container))
      ensures trace == old(trace) + BindCalls(old(provider), old(ContainerOf(provider)), p, volume, mute)
    {
      var container: Option<Container> := None;
      if provider != null {
        trace := trace + [Invoke(provider, RemoveGlobalListener)];
        container := provider.container;
        if container.Some? {
          trace := trace + [Invoke(provider, Remove)];
          trace := trace + [Invoke(p, SetContainer(container.value))];
          p.container := container;
        }
      }
      provider := p;
      trace := trace + [Invoke(p, Volume(volume))];
      trace := trace + [Invoke(p, Mute(mute))];
      trace := trace + [Invoke(p, AddGlobalListener)];
    }

    /** Detaches from and destroys the bound provider, if any; the slot itself is kept. */
    method Destroy()
      modifies this`trace
      ensures trace == old(trace) + (if provider == null then []
                                     else [Invoke(provider, RemoveGlobalListener), Invoke(provider, ProviderCall.Destroy)])
    {
      if provider != null {
        trace := trace + [Invoke(provider, RemoveGlobalListener)];
        trace := trace + [Invoke(provider, ProviderCall.Destroy)];
      }
    }

    /** Starts or ends a seek drag: the provider pauses while the user drags and plays after. */
    method SeekDrag(isDragging: bool)
      requires provider != null
      modifies this`dragging, this`trace
      ensures dragging == isDragging
      ensures trace == old(trace) + [Invoke(provider, if isDragging then Pause else Play)]
    {
      dragging := isDragging;
      if isDragging {
        trace := trace + [Invoke(provider, Pause)];
      } else {
        trace := trace + [Invoke(provider, Play)];
      }
    }

    /** Records the fullscreen flag, announcing it only when it changes. */
    method SetFullscreen(on: bool)
      modifies this`fullscreen, this`trace
      ensures fullscreen == on
      ensures trace == old(trace) + (if on != old(fullscreen) then [Publish(FullscreenChanged(on))] else [])
    {
      if on != fullscreen {
        fullscreen := on;
        trace := trace + [Publish(FullscreenChanged(on))];
      }
    }

    /**
     * What selecting entry `k` does after its item event, relative to the provider slots
     * `current0` and `provider0`, the bound provider's container `container0` and the
     * effects `trace0` before: nothing more without a first source, a fault when the registry
     * has no provider type for it, otherwise `ProviderReady`.
     */
    ghost predicate SelectedAt(k: int, current0: Provider?, provider0: Provider?, container0: Option<Container>,
                               trace0: seq<Effect>, r: Outcome)
      reads this, current
    {
      var source := FirstSource(playlist, k);
      if source.None? then
        r == Pass && current == current0 && provider == provider0 && trace == trace0
      else
        var tag := choose(source.value);
        if tag.None? then
          r == Fail(NoProviderMessage) && current == current0 && provider == provider0 && trace == trace0
        else
          r == Pass && ProviderReady(tag.value, playlist[k], current0, provider0, container0, trace0)
    }

    /**
     * A provider of type `tag` serves `entry`: a new one, bound in place of `provider0`, when
     * the last constructed one (`current0`) is of another type; then its item hook.
     */
    ghost predicate ProviderReady(tag: ProviderTag, entry: Item, current0: Provider?, provider0: Provider?,
                                  container0: Option<Container>, trace0: seq<Effect>)
      reads this, current
    {
      && current != null && current.tag == tag
      && if current0 != null && current0.tag == tag then
           current == current0 && provider == provider0 && trace == trace0 + InitCall(current, entry)
         else
           && provider == current && current.container == container0
           && trace == trace0 + BindCalls(provider0, container0, current, volume, mute) + InitCall(current, entry)
    }

    /** Selects playlist entry `index` (normalised), choosing and binding a provider for it. */
    method SetItem(index: int) returns (r: Outcome)
      modifies this`item, this`trace, this`current, this`provider
      ensures var sel := NormalizeIndex(index, |playlist|);
        if sel.repeat || old(item) != Some(sel.item) then
          && item == Some(sel.item)
          && SelectedAt(sel.item, old(current), old(provider), old(ContainerOf(provider)),
                        old(trace) + [Publish(PlaylistItem(sel.item))], r)
          && Published(trace) == Published(old(trace)) + [PlaylistItem(sel.item)]
        else
          item == old(item) && current == old(current) && provider == old(provider) && trace == old(trace) && r == Pass
      ensures current != old(current) ==> fresh(current)
    {
      var sel := NormalizeIndex(index, |playlist|);
      r := Pass;
      if sel.repeat || item != Some(sel.item) {
        item := Some(sel.item);
        PublishedAppend(trace, [Publish(PlaylistItem(sel.item))]);
        trace := trace + [Publish(PlaylistItem(sel.item))];
        var source := FirstSource(playlist, sel.item);
        if source.Some? {
          var tag := choose(source.value);
          if tag.None? {
            r := Fail(NoProviderMessage);
          } else {
            UseProvider(tag.value, playlist[sel.item]);
          }
        }
      }
    }

    /**
     * Makes a provider of type `tag` serve `entry`: constructs and binds a new one unless the
     * last constructed provider already has that type, then runs its item hook.
     */
    method UseProvider(tag: ProviderTag, entry: Item)
      modifies this`current, this`provider, this`trace
      ensures ProviderReady(tag, entry, old(current), old(provider), old(ContainerOf(provider)), old(trace))
      ensures Published(trace) == Published(old(trace))
      ensures current != old(current) ==> fresh(current)
    {
      ghost var bound: seq<Effect> := [];
      if current == null || current.tag != tag {
        var p := new Provider(tag);
        current := p;
        SetVideoProvider(p);
        bound := BindCalls(old(provider), old(ContainerOf(provider)), p, volume, mute);
      }
      ghost var rebound := trace;
      if current.tag.hasInit {
        trace := trace + [Invoke(current, Init(entry))];
      }
      assert Published(bound) == [] && Published(InitCall(current, entry)) == [];
      PublishedAppend(old(trace), bound);
      PublishedAppend(rebound, InitCall(current, entry));
    }

    /** Replaces the playlist with its playable part and selects its first entry. */
    method SetPlaylist(raw: seq<Item>, filter: seq<Item> -> seq<Item>, loaded: seq<Item>) returns (r: Outcome)
      modifies this`playlist, this`item, this`trace, this`current, this`provider
      ensures playlist == filter(raw)
      ensures |playlist| == 0 ==>
        && item == old(item) && current == old(current) && provider == old(provider) && r == Pass
        && trace == old(trace) + [Publish(PlayerError(EmptyPlaylistMessage))]
      ensures |playlist| > 0 ==>
        && item == Some(0)
        && SelectedAt(0, old(current), old(provider), old(ContainerOf(provider)),
                      old(trace) + [Publish(PlaylistLoaded(loaded)), Publish(PlaylistItem(0))], r)
      ensures Published(trace) == Published(old(trace)) +
        (if |playlist| == 0 then [PlayerError(EmptyPlaylistMessage)] else [PlaylistLoaded(loaded), PlaylistItem(0)])
      ensures current != old(current) ==> fresh(current)
    {
      playlist := filter(raw);
      if |playlist| == 0 {
        PublishedAppend(trace, [Publish(PlayerError(EmptyPlaylistMessage))]);
        trace := trace + [Publish(PlayerError(EmptyPlaylistMessage))];
        r := Pass;
      } else {
        PublishedAppend(trace, [Publish(PlaylistLoaded(loaded))]);
        trace := trace + [Publish(PlaylistLoaded(loaded))];
        item := Some(-1);
        r := SetItem(0);
        assert old(trace) + [Publish(PlaylistLoaded(loaded)), Publish(PlaylistItem(0))]
            == old(trace) + [Publish(PlaylistLoaded(loaded))] + [Publish(PlaylistItem(0))];
      }
    }

    /** Sets the volume, unmuting first when it is positive; the volume is saved only while unmuted. */
    method SetVolume(v: int)
      modifies this`volume, this`mute, this`trace
      decreases 1
      ensures volume == v
      ensures mute == (old(mute) && v <= 0)
      ensures trace == old(trace) + SetVolumeEffects(old(mute), provider, v)
    {
      if mute && v > 0 {
        SetMute(Some(false));
      }
      if !mute {
        trace := trace + [Save("volume", Number(v))];
      }
      volume := v;
      if provider != null {
        trace := trace + [Invoke(provider, Volume(v))];
      }
    }

    /**
     * Sets (or, given no value, toggles) the mute flag and saves it; muting at volume 0 first
     * raises the volume to 20, which unmutes again.
     */
    method SetMute(state: Option<bool>)
      modifies this`volume, this`mute, this`trace
      decreases if state.GetOr(!mute) then 2 else 0
      ensures var s := state.GetOr(!old(mute));
        && mute == (s && old(volume) != 0)
        && volume == (if s && old(volume) == 0 then 20 else old(volume))
        && trace == old(trace) + SetMuteEffects(old(volume), s, provider)
    {
      var s := if state.Some? then state.value else !mute;
      trace := trace + [Save("mute", Flag(s))];
      mute := s;
      if mute && volume == 0 {
        SetVolume(20);
      }
      if provider != null {
        trace := trace + [Invoke(provider, Mute(s))];
      }
    }
  }
}
