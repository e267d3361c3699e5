/**
 * Call sequences on the controller whose outcome the player's behaviour promises,
 * proved from the method contracts alone.
 */
module Scenarios {
  import opened Wrappers
  import opened Events
  import opened Config
  import opened Controller

  /** Selecting the same in-range entry twice publishes its item event at most once. */
  method SelectSameItemTwice(m: Model, k: int) returns (first: Outcome, second: Outcome)
    requires 0 <= k < |m.playlist|
    modifies m`item, m`trace, m`current, m`provider
    ensures m.item == Some(k)
    ensures second == Pass
    ensures Published(m.trace) == Published(old(m.trace)) + (if old(m.item) == Some(k) then [] else [PlaylistItem(k)])
  {
    first := m.SetItem(k);
    ghost var between := m.trace;
    second := m.SetItem(k);
    assert m.trace == between;
  }

  /** Asking for the entry past the end while on the first entry re-selects it as a repeat. */
  method RepeatFromFirst(m: Model) returns (r: Outcome)
    requires |m.playlist| > 0 && m.item == Some(0)
    modifies m`item, m`trace, m`current, m`provider
    ensures m.item == Some(0)
    ensures Published(m.trace) == Published(old(m.trace)) + [PlaylistItem(0)]
  {
    r := m.SetItem(|m.playlist|);
  }

  /**
   * Muting at volume 0 ends with volume 20 and the controller unmuted, while the last call
   * the provider received is `mute(true)`.
   */
  method MuteAtZeroVolume(m: Model)
    requires m.volume == 0 && m.provider != null
    modifies m`volume, m`mute, m`trace
    ensures m.volume == 20 && !m.mute
    ensures m.trace == old(m.trace) +
      [ Save("mute", Flag(true)),
        Save("mute", Flag(false)), Invoke(m.provider, Mute(false)),
        Save("volume", Number(20)), Invoke(m.provider, Volume(20)),
        Invoke(m.provider, Mute(true)) ]
  {
    m.SetMute(Some(true));
    MuteAtZeroEffects(m.provider);
  }

  /** At an audible volume, muting and then toggling leaves the controller unmuted at that volume. */
  method MuteThenToggle(m: Model)
    requires m.volume != 0
    modifies m`volume, m`mute, m`trace
    ensures m.volume == old(m.volume) && !m.mute
  {
    m.SetMute(Some(true));
    assert m.mute;
    m.SetMute(None);
  }

  /**
   * Swapping in provider `p` for a bound provider that owns container `c`: the old listener
   * goes first, the old provider is removed and `p` given `c`, and `p` is told volume and mute
   * before its listener is attached.
   */
  method HandOver(m: Model, p: Provider, c: Container)
    requires m.provider != null && m.provider != p && m.provider.container == Some(c)
    modifies m`provider, m`trace, p`container
    ensures m.provider == p && p.container == Some(c)
    ensures m.trace == old(m.trace) +
      [ Invoke(old(m.provider), RemoveGlobalListener),
        Invoke(old(m.provider), Remove), Invoke(p, SetContainer(c)),
        Invoke(p, Volume(m.volume)), Invoke(p, Mute(m.mute)), Invoke(p, AddGlobalListener) ]
  {
    m.SetVideoProvider(p);
  }
}
