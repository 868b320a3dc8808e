/**
 * CompetitiveLoggerService: installs one CompetitiveLogHandler in place of
 * Unity's default logger, removes it again, and switches its output off for
 * gameplay and on for every other game state.
 *
 * The service's static fields become the fields of one service object; the
 * reflective swap of Unity's logger field is reduced to the
 * hasLoggerBeenReplaced flag that guards it.
 */
module LoggerService {
  import opened LogRecords
  import opened HandlerModel
  import opened LogHandler

  /** The game states the service reacts to; only Gameplay is told apart. */
  datatype GameState = Gameplay | OtherState

  class CompetitiveLoggerService<Exc, Ctx, Arg> {
    var handler: CompetitiveLogHandler?<Exc, Ctx, Arg>
    var hasLoggerBeenReplaced: bool

    /** While the logger is replaced there is a handler receiving the logs. */
    ghost predicate Valid()
      reads this
    {
      hasLoggerBeenReplaced ==> handler != null
    }

    /** The static fields' initial values: nothing installed yet. */
    constructor ()
      ensures Valid()
      ensures handler == null && !hasLoggerBeenReplaced
    {
      handler := null;
      hasLoggerBeenReplaced := false;
    }

    /**
     * Install a fresh handler, output enabled, unless one is installed
     * already; a second call changes nothing.
     */
    method ReplaceLogger()
      requires Valid()
      modifies this
      ensures Valid() && hasLoggerBeenReplaced
      ensures old(hasLoggerBeenReplaced) ==> handler == old(handler)
      ensures !old(hasLoggerBeenReplaced) ==> fresh(handler) && handler.State() == Initial()
    {
      if !hasLoggerBeenReplaced {
        handler := new CompetitiveLogHandler<Exc, Ctx, Arg>();
        hasLoggerBeenReplaced := true;
      }
    }

    /**
     * Uninstall the handler, first enabling its output so that nothing it
     * holds back is lost; without an installed handler, nothing happens.
     */
    method ResetLogger()
      requires Valid()
      modifies this, handler
      ensures Valid() && !hasLoggerBeenReplaced && handler == old(handler)
      ensures old(hasLoggerBeenReplaced) ==>
        handler.State() == Enable(old(handler.State())) && handler.cache == []
      ensures !old(hasLoggerBeenReplaced) && handler != null ==>
        handler.State() == old(handler.State())
    {
      if hasLoggerBeenReplaced {
        handler.EnableLogOutput();
        hasLoggerBeenReplaced := false;
      }
    }

    /** Gameplay disables log output; any other state enables it and dumps the cache. */
    method OnStateChange(newState: GameState)
      requires handler != null
      modifies handler
      ensures newState == Gameplay ==> handler.State() == Disable(old(handler.State()))
      ensures newState != Gameplay ==> handler.State() == Enable(old(handler.State()))
    {
      if newState == Gameplay {
        handler.DisableLogOutput();
      } else {
        handler.EnableLogOutput();
      }
    }
  }

  /**
   * A client run over a whole round: install, enter gameplay, log, leave
   * gameplay, uninstall. The message logged during gameplay reaches the
   * wrapped logger only after gameplay ends, and uninstalling afterwards
   * forwards nothing more.
   */
  method MessageDuringGameplayArrivesAfterwards<Exc, Ctx, Arg>(context: Ctx, message: string)
    returns (duringGameplay: seq<SinkCall<Exc, Ctx, Arg>>, afterGameplay: seq<SinkCall<Exc, Ctx, Arg>>,
             afterReset: seq<SinkCall<Exc, Ctx, Arg>>)
    ensures duringGameplay == []
    ensures afterGameplay == afterReset == [FormatCall(Warning, context, message, [])]
  {
    var service := new CompetitiveLoggerService<Exc, Ctx, Arg>();
    service.ReplaceLogger();
    var handler := service.handler;
    service.OnStateChange(Gameplay);
    handler.LogFormat(Warning, context, message, []);
    duringGameplay := handler.forwarded;
    service.OnStateChange(OtherState);
    afterGameplay := handler.forwarded;
    service.ResetLogger();
    afterReset := handler.forwarded;
  }
}
