/**
 * The dispatcher: `sendMail` (also the body of the deferred task "sendgrid")
 * and `SendMailDelay`. The development-server flag is fixed for the process;
 * logging, enqueueing and delivery are recorded as effects in order, and the
 * delivery client's answer is a parameter.
 */
module Dispatch {
  import opened Wrappers
  import opened Mail
  import opened Configuration

  /** An observable effect of dispatching. */
  datatype Effect =
    | WouldHaveSent(mail: SGMail)              // the development server's log line instead of a send
    | Enqueued(mail: SGMail)                   // a deferred "sendgrid" task carrying the mail
    | Delivered(mail: SGMail, credentials: Config)  // a request to SendGrid with the cached credentials

  /** The errors a caller can see. */
  datatype SendError =
    | TranslationError(mailError: MailError)
    | ConfigError
    | TransportError(cause: string)

  class Dispatcher {
    /** `appengine.IsDevAppServer()`. */
    const isDev: bool
    /** The package-level configuration cache. */
    const loader: ConfigLoader
    var effects: seq<Effect>

    constructor (isDev: bool, loader: ConfigLoader)
      ensures this.isDev == isDev && this.loader == loader && effects == []
    {
      this.isDev := isDev;
      this.loader := loader;
      effects := [];
    }

    /**
     * `sendMail`. On the development server it only logs and succeeds, without
     * loading configuration. Otherwise a configuration error is returned before
     * any delivery; after a successful load the mail is delivered with the
     * cached credentials and the delivery client's error is returned as is.
     */
    method SendMail(mail: SGMail, io: StoreIo, delivery: Option<string>) returns (err: Option<SendError>)
      requires loader.Valid()
      modifies this, loader
      ensures loader.Valid()
      ensures isDev ==>
        && err == None
        && effects == old(effects) + [WouldHaveSent(mail)]
        && unchanged(loader)
      ensures !isDev ==>
        var step := Load(old(loader.State()), io);
        && loader.State() == step.state
        && loader.ops == old(loader.ops) + step.ops
        && (step.status == ErrConfig ==> err == Some(ConfigError) && effects == old(effects))
        && (step.status == Loaded ==>
              && step.state.cached.Some?
              && effects == old(effects) + [Delivered(mail, step.state.cached.value)]
              && err == if delivery.None? then None else Some(TransportError(delivery.value)))
    {
      if isDev {
        effects := effects + [WouldHaveSent(mail)];
        return None;
      }
      var status := loader.LoadConfig(io);
      if status == ErrConfig {
        return Some(ConfigError);
      }
      effects := effects + [Delivered(mail, loader.cached.value)];
      err := if delivery.None? then None else Some(TransportError(delivery.value));
    }

    /**
     * `SendMailDelay`. A translation error is returned before anything else
     * happens. On the development server the mail is sent at once through
     * `SendMail`, whose result is returned; otherwise it is enqueued and the
     * call succeeds.
     */
    method SendMailDelay(p: AddressParser, m: Message, io: StoreIo, delivery: Option<string>)
      returns (err: Option<SendError>)
      requires loader.Valid()
      modifies this, loader
      ensures loader.Valid()
      ensures var t := Translate(p, m).result;
        && (t.Failure? ==>
              err == Some(TranslationError(t.error)) && effects == old(effects) && unchanged(loader))
        && (t.Success? && isDev ==>
              err == None && effects == old(effects) + [WouldHaveSent(t.value)] && unchanged(loader))
        && (t.Success? && !isDev ==>
              err == None && effects == old(effects) + [Enqueued(t.value)] && unchanged(loader))
    {
      var sgmail, calls := MigrateMail(p, m);
      if sgmail.Failure? {
        return Some(TranslationError(sgmail.error));
      }
      if isDev {
        err := SendMail(sgmail.value, io, delivery);
        return;
      }
      effects := effects + [Enqueued(sgmail.value)];
      return None;
    }
  }
}
