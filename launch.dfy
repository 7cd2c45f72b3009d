/** Process start-up and admission: which port to listen on, and whether an
    accepted connection is handed to the connection handler. */
module Launch {
  import opened Coordinator

  /** The port used when no argument is given. */
  const DefaultPort := "8989"

  /** The reply to a connection turned away because the chat is full. */
  const ChatFullReply := "Chat is full, try again later.\n"

  /** Start-up either listens on a port or prints the usage text and stops. */
  datatype Startup = Listen(port: string) | Usage(text: string)

  /** The port decision on the arguments after the program name: none means
      the default port, one is the port itself, more is a usage error. */
  function ChoosePort(args: seq<string>, usage: string): (r: Startup)
    ensures |args| == 0 ==> r == Listen(DefaultPort)
    ensures |args| == 1 ==> r == Listen(args[0])
    ensures |args| > 1 ==> r == Usage(usage)
  {
    if |args| == 1 then Listen(args[0])
    else if |args| > 1 then Usage(usage)
    else Listen(DefaultPort)
  }

  /** What happens to an accepted connection. */
  datatype Admission = HandOff | Reject(reply: string)

  /** The admission test on the current member count: a full chat refuses with
      a fixed reply; otherwise the connection is handed on. */
  function Admit(count: int, maxClients: int): (a: Admission)
    ensures a.Reject? <==> count >= maxClients
    ensures a.Reject? ==> a.reply == ChatFullReply
  {
    if count >= maxClients then Reject(ChatFullReply) else HandOff
  }

  /** The check made for each accepted connection: read the member count from
      the coordinator and refuse when it has reached `maxClients`. Nothing in
      the coordinator changes. */
  method AdmitConnection(s: Server, maxClients: int) returns (a: Admission)
    ensures a.Reject? <==> |s.clients| >= maxClients
    ensures a.Reject? ==> a.reply == ChatFullReply
  {
    var n := s.ClientCount();
    a := Admit(n, maxClients);
  }
}
