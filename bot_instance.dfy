/** The older bot (`bot/bot.go`): one player, one optional voice
    connection. Discord sessions, configuration and logging are not
    modelled; the voice connection is reduced to whether it exists. */
module BotInstance {
  import BotQueue

  class Bot {
    const player: BotQueue.Player
    /** `b.Voice != nil` */
    var voiceConnected: bool
    /** Playback loops started by PlayQueue. */
    var loopsStarted: nat

    /** The bot as NewBotInstance leaves it once it has joined the voice
      channel: an empty, idle player. */
    constructor ()
      ensures fresh(player) && voiceConnected && loopsStarted == 0
      ensures player.tracks == [] && !player.playing && !player.stop && !player.pause
      ensures !player.streamPaused && player.sessionStops == 0
    {
      player := new BotQueue.Player();
      voiceConnected := true;
      loopsStarted := 0;
    }

    /** PlayQueue's entry guard (`bot/player.go`): a playback loop is started
      only when the player is not already playing. */
    method PlayQueue()
      modifies this
      ensures loopsStarted == old(loopsStarted) + (if player.playing then 0 else 1)
      ensures voiceConnected == old(voiceConnected)
    {
      if player.playing {
        return;
      }
      loopsStarted := loopsStarted + 1;
    }
  }
}
