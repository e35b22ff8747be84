/** Adapter options: the built-in defaults, the caller's overrides and the null-safe lookup. */
module Options {
  import opened PhpValues

  type OptionMap = map<string, Value>

  const DEFAULT_HOST: string := "localhost"
  const DEFAULT_SCHEME: string := "tcp"
  const DEFAULT_PORT: string := "61613"
  const DEFAULT_STOMP_CLIENT_CLASS: string := "Zend_Queue_Stomp_Client"
  const DEFAULT_STOMP_CONNECTION_CLASS: string := "Zend_Queue_Stomp_Client_Connection"
  const DEFAULT_STOMP_FRAME_CLASS: string := "Zend_Queue_Stomp_Frame"

  /** The adapter's `$_options` before construction. */
  function Defaults(): OptionMap {
    map[
      "host" := Str(DEFAULT_HOST),
      "scheme" := Str(DEFAULT_SCHEME),
      "port" := Str(DEFAULT_PORT),
      "stompClientClass" := Str(DEFAULT_STOMP_CLIENT_CLASS),
      "stompClientConnectionClass" := Str(DEFAULT_STOMP_CONNECTION_CLASS),
      "stompClientFrameClass" := Str(DEFAULT_STOMP_FRAME_CLASS)
    ]
  }

  /** The options the adapter holds once constructed: the caller's options laid over the defaults. */
  function Merge(user: OptionMap): OptionMap {
    Defaults() + user
  }

  /** `_getOption`: `isset` is false for a missing key and for a key whose value is null. */
  function GetOption(options: OptionMap, name: string): (v: Value)
    ensures v == Null <==> name !in options || options[name] == Null
    ensures v != Null ==> v == options[name]
  {
    if name in options && options[name] != Null then options[name] else Null
  }

  // The getters: a stored null and a missing key both read as null.

  function Username(options: OptionMap): (v: Value)
    ensures v == if "username" in options then options["username"] else Null
  {
    GetOption(options, "username")
  }

  function Password(options: OptionMap): (v: Value)
    ensures v == if "password" in options then options["password"] else Null
  {
    GetOption(options, "password")
  }

  function Host(options: OptionMap): (v: Value)
    ensures v == if "host" in options then options["host"] else Null
  {
    GetOption(options, "host")
  }

  function Port(options: OptionMap): (v: Value)
    ensures v == if "port" in options then options["port"] else Null
  {
    GetOption(options, "port")
  }

  function Scheme(options: OptionMap): (v: Value)
    ensures v == if "scheme" in options then options["scheme"] else Null
  {
    GetOption(options, "scheme")
  }

  function StompClientClass(options: OptionMap): (v: Value)
    ensures v == if "stompClientClass" in options then options["stompClientClass"] else Null
  {
    GetOption(options, "stompClientClass")
  }

  function StompClientFrameClass(options: OptionMap): (v: Value)
    ensures v == if "stompClientFrameClass" in options then options["stompClientFrameClass"] else Null
  {
    GetOption(options, "stompClientFrameClass")
  }

  function StompClientConnectionClass(options: OptionMap): (v: Value)
    ensures v == if "stompClientConnectionClass" in options then options["stompClientConnectionClass"] else Null
  {
    GetOption(options, "stompClientConnectionClass")
  }


  /** A configured option wins, even a null one; an unconfigured one falls back to its default, else reads as null. */
  lemma OptionFallback(user: OptionMap, name: string)
    ensures GetOption(Merge(user), name) ==
      if name in user then user[name]
      else if name in Defaults() then Defaults()[name]
      else Null
  {
  }

  /** With no options given, the getters return the defaults and no credentials. */
  lemma FreshAdapterDefaults()
    ensures Host(Merge(map[])) == Str("localhost")
    ensures Scheme(Merge(map[])) == Str("tcp")
    ensures Port(Merge(map[])) == Str("61613")
    ensures StompClientClass(Merge(map[])) == Str("Zend_Queue_Stomp_Client")
    ensures Username(Merge(map[])) == Null && Password(Merge(map[])) == Null
  {
  }
}
