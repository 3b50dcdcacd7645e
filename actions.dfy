/** The effects the players ask for, in the order they ask for them. The
    media player, `pkill`, `bluetoothctl` and the threads themselves are
    outside the model; each call is recorded as an Action. */
module Actions {
  import opened Optional
  import opened Playback

  datatype Action =
    | PlayAllRandom                              // play_all_songs_randomly()
    | PlayAlbum(folder: string, shuffle: bool)   // play_album(folder, shuffle)
    | Stop                                       // player.stop(), stop_audio(), pkill vlc
    | Power(on: bool)                            // bluetoothctl power on / off
    | PlaySongs(paths: seq<string>)              // play_audio on each path in turn
    | StartThread(paths: seq<string>, shuffleArg: ShuffleArg)  // final.py AudioPlayerThread
    | StartLockedThread(paths: seq<string>)      // new.py AudioPlayerThread

  /** The power command issued for an optional decision. */
  function PowerActions(command: Option<bool>): (r: seq<Action>)
    ensures command.None? <==> r == []
    ensures command.Some? ==> r == [Power(command.value)]
  {
    if command.Some? then [Power(command.value)] else []
  }

  /** The power requests among `actions`, in order. */
  function Powers(actions: seq<Action>): seq<bool>
  {
    if actions == [] then []
    else (if actions[0].Power? then [actions[0].on] else []) + Powers(actions[1..])
  }

  /** The lists handed to `play_audio` loops among `actions`, in order. */
  function Played(actions: seq<Action>): seq<seq<string>>
  {
    if actions == [] then []
    else (if actions[0].PlaySongs? then [actions[0].paths] else []) + Played(actions[1..])
  }

  /** One action contributes its own power request and play list, if any. */
  lemma PowersPlayedSingle(a: Action)
    ensures Powers([a]) == (if a.Power? then [a.on] else [])
    ensures Played([a]) == (if a.PlaySongs? then [a.paths] else [])
  {
    assert [a][1..] == [];
  }

  lemma {:induction false} PowersConcat(a: seq<Action>, b: seq<Action>)
    ensures Powers(a + b) == Powers(a) + Powers(b)
  {
    if a == [] {
      assert a + b == b;
    } else {
      assert (a + b)[0] == a[0] && (a + b)[1..] == a[1..] + b;
      PowersConcat(a[1..], b);
    }
  }

  lemma {:induction false} PlayedConcat(a: seq<Action>, b: seq<Action>)
    ensures Played(a + b) == Played(a) + Played(b)
  {
    if a == [] {
      assert a + b == b;
    } else {
      assert (a + b)[0] == a[0] && (a + b)[1..] == a[1..] + b;
      PlayedConcat(a[1..], b);
    }
  }
}
