/** `CommandData` and `CommandResponse`: the request and response envelopes of
    the operator-console command protocol, with the response factories. */
module CommandTypes {
  import opened Wrappers
  import opened Json
  import Text

  /** `{cmd, args}`; `cmd` may be a null string (`None`) and a missing
      `args` is `JNull`. */
  datatype CommandData = CommandData(cmd: Option<string>, args: Json)

  /** `{code, message, data}`; a missing `data` is `JNull`. */
  datatype CommandResponse = CommandResponse(code: int, message: string, data: Json)

  const SuccessCode := 100
  const NotFoundCode := 404
  const ServerErrorCode := 500

  /** Text that precedes the command name in the not-found message. */
  const NotFoundPrefix := "등록되지 않은 명령어입니다: "

  /** `new CommandData(cmd, args = null)`. */
  function NewCommandData(cmd: Option<string>, args: Json := JNull): (d: CommandData)
    ensures d.cmd == cmd && d.args == args
  {
    CommandData(cmd, args)
  }

  /** `new CommandResponse(code, message, data = null)`. */
  function NewCommandResponse(code: int, message: string, data: Json := JNull): (r: CommandResponse)
    ensures r.code == code && r.message == message && r.data == data
  {
    CommandResponse(code, message, data)
  }

  /** `CommandResponse.Success(message, data = null)`: code 100. */
  function Success(message: string, data: Json := JNull): (r: CommandResponse)
    ensures r.code == SuccessCode && r.message == message && r.data == data
  {
    NewCommandResponse(100, message, data)
  }

  /** `CommandResponse.Error(code, message, data = null)`: any code, kept as given. */
  function Error(code: int, message: string, data: Json := JNull): (r: CommandResponse)
    ensures r.code == code && r.message == message && r.data == data
  {
    NewCommandResponse(code, message, data)
  }

  /** `CommandResponse.NotFound(command)`: code 404 and a message naming the command. */
  function NotFound(command: string): (r: CommandResponse)
    ensures r.code == NotFoundCode && r.data == JNull
    ensures Text.EndsWith(r.message, command)
    ensures r.message == NotFoundPrefix + command
  {
    NewCommandResponse(404, NotFoundPrefix + command)
  }

  /** `CommandResponse.ServerError(message)`: code 500, no data. */
  function ServerError(message: string): (r: CommandResponse)
    ensures r.code == ServerErrorCode && r.message == message && r.data == JNull
  {
    NewCommandResponse(500, message)
  }

  /** The not-found response identifies the command: different names give
      different responses. */
  lemma NotFoundIdentifiesCommand(c1: string, c2: string)
    requires NotFound(c1) == NotFound(c2)
    ensures c1 == c2
  {
    var m := NotFound(c1).message;
    assert c1 == m[|NotFoundPrefix|..];
    assert c2 == NotFound(c2).message[|NotFoundPrefix|..];
  }

  /** The three fixed-code factories never produce one another's responses. */
  lemma FactoriesDisjoint(m1: string, d: Json, c: string, m2: string)
    ensures Success(m1, d) != NotFound(c)
    ensures Success(m1, d) != ServerError(m2)
    ensures NotFound(c) != ServerError(m2)
  {
  }
}
