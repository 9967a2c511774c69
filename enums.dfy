/**
 * The application's enumerations (server type, server status, client status)
 * and their fixed display texts.
 */
module AppEnums {

  import opened Options

  datatype ServerType = TCP | UDP | MODBUS_TCP | MODBUS_RTU

  /** A quint16 port number. */
  type Port = p: int | 0 <= p < 0x1_0000

  datatype ServerStatus = STOPPED | RUNNING | ERROR

  /** Status of a tracked client; the declaration order fixes the numeric codes. */
  datatype ClientStatus = DELETED | DISCONNECTED | AUTHORIZING | CONNECTED

  /** Display name of a server type. */
  function TypeToString(t: ServerType): (r: string)
    ensures t == TCP <==> r == "TCP"
    ensures t == UDP <==> r == "UDP"
    ensures t == MODBUS_TCP <==> r == "MODBUS TCP"
    ensures t == MODBUS_RTU <==> r == "MODBUS RTU"
  {
    match t
    case TCP => "TCP"
    case UDP => "UDP"
    case MODBUS_TCP => "MODBUS TCP"
    case MODBUS_RTU => "MODBUS RTU"
  }

  /** Display name of a server status. */
  function ServerStatusToString(s: ServerStatus): string
  {
    match s
    case STOPPED => "Остановлен"
    case RUNNING => "Запущен"
    case ERROR => "Ошибка"
  }

  /** The text shown for statuses outside the three named ones. */
  const Unknown: string := "Неизвестно"

  /** Display name of a client status; DELETED has no name of its own. */
  function ClientStatusToString(s: ClientStatus): string
  {
    match s
    case DISCONNECTED => "Отключен"
    case AUTHORIZING => "Авторизация"
    case CONNECTED => "Подключен"
    case DELETED => Unknown
  }

  /** The integer a client status is carried as inside a snapshot. */
  function Code(s: ClientStatus): (c: int)
    ensures 0 <= c <= 3
  {
    match s
    case DELETED => 0
    case DISCONNECTED => 1
    case AUTHORIZING => 2
    case CONNECTED => 3
  }

  /** The status an integer stands for (a static_cast); codes outside 0..3 name none. */
  function StatusOfCode(c: int): (r: Option<ClientStatus>)
    ensures r.Some? <==> 0 <= c <= 3
  {
    if c == 0 then Some(DELETED)
    else if c == 1 then Some(DISCONNECTED)
    else if c == 2 then Some(AUTHORIZING)
    else if c == 3 then Some(CONNECTED)
    else None
  }

  /** The display text of a status carried as an integer code. */
  function CodeToString(c: int): (r: string)
  {
    match StatusOfCode(c)
    case Some(s) => ClientStatusToString(s)
    case None => Unknown
  }

  lemma ServerStatusNamesDistinct(a: ServerStatus, b: ServerStatus)
    ensures ServerStatusToString(a) == ServerStatusToString(b) <==> a == b
  {
  }

  lemma TypeNamesDistinct(a: ServerType, b: ServerType)
    ensures TypeToString(a) == TypeToString(b) <==> a == b
  {
  }

  /** The three named client statuses have distinct texts, none of them the fallback. */
  lemma ClientStatusNames(a: ClientStatus, b: ClientStatus)
    requires a != DELETED && b != DELETED
    ensures ClientStatusToString(a) == ClientStatusToString(b) <==> a == b
    ensures ClientStatusToString(a) != Unknown
    ensures ClientStatusToString(DELETED) == Unknown
  {
  }

  /** Codes follow declaration order, and a code converts back to its status. */
  lemma CodeOrderAndRoundTrip(a: ClientStatus, b: ClientStatus)
    ensures StatusOfCode(Code(a)) == Some(a)
    ensures Code(a) == Code(b) <==> a == b
    ensures Code(DELETED) < Code(DISCONNECTED) < Code(AUTHORIZING) < Code(CONNECTED)
  {
  }
}
