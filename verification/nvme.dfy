/** NVMe admin commands sent through the admin pass-through ioctl: which
    fields of the command each helper fills, how the ioctl's return value is
    read, and the Identify Controller data structure. The controller is an
    oracle answering each submission from the submissions before it. */
module Nvme {
  import opened Base

  const TIMEOUT_MS: uint32 := 10000

  /** The scalar fields of the admin command; the data pointer is not modelled. */
  datatype AdminCmd = AdminCmd(
    opcode: bv8, flags: bv8, rsvd1: uint16, nsid: uint32, cdw2: uint32, cdw3: uint32,
    metadata: uint64, metadataLen: uint32, dataLen: uint32,
    cdw10: uint32, cdw11: uint32, cdw12: uint32, cdw13: uint32, cdw14: uint32, cdw15: uint32,
    timeoutMs: uint32, result: uint32)

  const ZEROED := AdminCmd(0, 0, 0, 0, 0, 0, 0, 0, 0, 0, 0, 0, 0, 0, 0, 0, 0)

  /** Which way the data buffer goes, and for a write what it holds. */
  datatype Transfer = NoTransfer | FromDevice | ToDevice(payload: seq<bv8>)

  datatype Submission = Submission(cmd: AdminCmd, transfer: Transfer)

  /** What the ioctl hands back: its return value and errno, the completion
      dword, and the bytes the controller transferred into the buffer. */
  datatype Completion = Completion(ret: int, errno: int, result: uint32, data: seq<bv8>)

  /** A successful command: the completion dword and, for a read, the buffer. */
  datatype Done = Done(result: uint32, buf: seq<bv8>)

  /** The command every helper submits: the caller's opcode, namespace and
      command dwords 10-15, the given data length, the fixed timeout, and zero elsewhere. */
  function Command(opcode: bv8, nsid: uint32, cdw10: uint32, cdw11: uint32, cdw12: uint32, cdw13: uint32,
                   cdw14: uint32, cdw15: uint32, dataLen: uint32): AdminCmd
  {
    AdminCmd(opcode, 0, 0, nsid, 0, 0, 0, 0, dataLen, cdw10, cdw11, cdw12, cdw13, cdw14, cdw15, TIMEOUT_MS, 0)
  }

  function ReadSubmission(opcode: bv8, nsid: uint32, cdw10: uint32, cdw11: uint32, cdw12: uint32, cdw13: uint32,
                          cdw14: uint32, cdw15: uint32, len: nat): Submission
  {
    Submission(Command(opcode, nsid, cdw10, cdw11, cdw12, cdw13, cdw14, cdw15, U32(len)), FromDevice)
  }

  function WriteSubmission(opcode: bv8, nsid: uint32, cdw10: uint32, cdw11: uint32, cdw12: uint32, cdw13: uint32,
                           cdw14: uint32, cdw15: uint32, payload: seq<bv8>): Submission
  {
    Submission(Command(opcode, nsid, cdw10, cdw11, cdw12, cdw13, cdw14, cdw15, U32(|payload|)), ToDevice(payload))
  }

  function NoDataSubmission(opcode: bv8, nsid: uint32, cdw10: uint32, cdw11: uint32, cdw12: uint32, cdw13: uint32,
                            cdw14: uint32, cdw15: uint32): Submission
  {
    Submission(Command(opcode, nsid, cdw10, cdw11, cdw12, cdw13, cdw14, cdw15, 0), NoTransfer)
  }

  /** The command carries the caller's opcode, namespace and dwords, the fixed
      timeout, and leaves every other field the caller cannot set at zero. */
  predicate Carries(c: AdminCmd, opcode: bv8, nsid: uint32, cdw10: uint32, cdw11: uint32, cdw12: uint32,
                    cdw13: uint32, cdw14: uint32, cdw15: uint32)
  {
    c.opcode == opcode && c.nsid == nsid && c.cdw10 == cdw10 && c.cdw11 == cdw11 && c.cdw12 == cdw12 &&
    c.cdw13 == cdw13 && c.cdw14 == cdw14 && c.cdw15 == cdw15 && c.timeoutMs == 10000 &&
    c.flags == 0 && c.rsvd1 == 0 && c.cdw2 == 0 && c.cdw3 == 0 && c.metadata == 0 && c.metadataLen == 0 && c.result == 0
  }

  /** All three helpers copy the caller's fields; reads and writes give the
      buffer's length, a command without data gives length 0. */
  lemma HelpersCarryFields(opcode: bv8, nsid: uint32, cdw10: uint32, cdw11: uint32, cdw12: uint32, cdw13: uint32,
                           cdw14: uint32, cdw15: uint32, len: nat, payload: seq<bv8>)
    ensures var s := ReadSubmission(opcode, nsid, cdw10, cdw11, cdw12, cdw13, cdw14, cdw15, len);
      Carries(s.cmd, opcode, nsid, cdw10, cdw11, cdw12, cdw13, cdw14, cdw15) && s.cmd.dataLen == U32(len)
    ensures var s := WriteSubmission(opcode, nsid, cdw10, cdw11, cdw12, cdw13, cdw14, cdw15, payload);
      Carries(s.cmd, opcode, nsid, cdw10, cdw11, cdw12, cdw13, cdw14, cdw15) && s.cmd.dataLen == U32(|payload|)
    ensures var s := NoDataSubmission(opcode, nsid, cdw10, cdw11, cdw12, cdw13, cdw14, cdw15);
      Carries(s.cmd, opcode, nsid, cdw10, cdw11, cdw12, cdw13, cdw14, cdw15) && s.cmd.dataLen == 0 && s.transfer == NoTransfer
  {
  }

  /** `submit_admin_cmd`: only a negative ioctl return value is a failure; the
      completion status is not decoded, and success yields the completion dword
      and, for a read, the caller's buffer `buf` with the transferred bytes over it. */
  function Outcome(s: Submission, c: Completion, buf: seq<bv8>): (r: Result<Done>)
    ensures r.Err? <==> c.ret < 0
    ensures r.Err? ==> r.error == IoctlFailed(c.errno)
    ensures r.Ok? ==> r.value.result == c.result
    ensures r.Ok? && s.transfer == FromDevice ==> r.value.buf == Overlay(buf, c.data)
  {
    if c.ret < 0 then Err(IoctlFailed(c.errno))
    else Ok(Done(c.result, if s.transfer == FromDevice then Overlay(buf, c.data) else []))
  }

  /** An open NVMe controller. `respond` stands for the controller: its answer
      may depend on every submission before (a vendor write selects what a
      later read returns). `submitted` is the history of submissions. */
  class NvmeDevice {
    const respond: (seq<Submission>, Submission) -> Completion
    var submitted: seq<Submission>

    constructor (respond: (seq<Submission>, Submission) -> Completion)
      ensures this.respond == respond && submitted == []
    {
      this.respond := respond;
      submitted := [];
    }

    /** The outcome of submitting `s` (reading into `buf` if it reads) after history `h`. */
    function Answer(h: seq<Submission>, s: Submission, buf: seq<bv8>): Result<Done>
    {
      Outcome(s, respond(h, s), buf)
    }

    method SubmitAdminCmd(s: Submission, buf: seq<bv8>) returns (r: Result<Done>)
      modifies this
      ensures submitted == old(submitted) + [s]
      ensures r == Answer(old(submitted), s, buf)
    {
      var c := respond(submitted, s);
      submitted := submitted + [s];
      if c.ret < 0 {
        return Err(IoctlFailed(c.errno));
      }
      r := Ok(Done(c.result, if s.transfer == FromDevice then Overlay(buf, c.data) else []));
    }

    method AdminRead(opcode: bv8, nsid: uint32, cdw10: uint32, cdw11: uint32, cdw12: uint32, cdw13: uint32,
                     cdw14: uint32, cdw15: uint32, buf: seq<bv8>) returns (r: Result<Done>)
      modifies this
      ensures submitted == old(submitted) + [ReadSubmission(opcode, nsid, cdw10, cdw11, cdw12, cdw13, cdw14, cdw15, |buf|)]
      ensures r == Answer(old(submitted), ReadSubmission(opcode, nsid, cdw10, cdw11, cdw12, cdw13, cdw14, cdw15, |buf|), buf)
    {
      var cmd := ZEROED;
      cmd := cmd.(opcode := opcode);
      cmd := cmd.(nsid := nsid);
      cmd := cmd.(cdw10 := cdw10, cdw11 := cdw11, cdw12 := cdw12);
      cmd := cmd.(cdw13 := cdw13, cdw14 := cdw14, cdw15 := cdw15);
      cmd := cmd.(dataLen := U32(|buf|));
      cmd := cmd.(timeoutMs := TIMEOUT_MS);
      r := SubmitAdminCmd(Submission(cmd, FromDevice), buf);
    }

    method AdminWrite(opcode: bv8, nsid: uint32, cdw10: uint32, cdw11: uint32, cdw12: uint32, cdw13: uint32,
                      cdw14: uint32, cdw15: uint32, payload: seq<bv8>) returns (r: Result<Done>)
      modifies this
      ensures submitted == old(submitted) + [WriteSubmission(opcode, nsid, cdw10, cdw11, cdw12, cdw13, cdw14, cdw15, payload)]
      ensures r == Answer(old(submitted), WriteSubmission(opcode, nsid, cdw10, cdw11, cdw12, cdw13, cdw14, cdw15, payload), [])
    {
      var cmd := ZEROED;
      cmd := cmd.(opcode := opcode);
      cmd := cmd.(nsid := nsid);
      cmd := cmd.(cdw10 := cdw10, cdw11 := cdw11, cdw12 := cdw12);
      cmd := cmd.(cdw13 := cdw13, cdw14 := cdw14, cdw15 := cdw15);
      cmd := cmd.(dataLen := U32(|payload|));
      cmd := cmd.(timeoutMs := TIMEOUT_MS);
      r := SubmitAdminCmd(Submission(cmd, ToDevice(payload)), []);
    }

    method AdminNoData(opcode: bv8, nsid: uint32, cdw10: uint32, cdw11: uint32, cdw12: uint32, cdw13: uint32,
                       cdw14: uint32, cdw15: uint32) returns (r: Result<Done>)
      modifies this
      ensures submitted == old(submitted) + [NoDataSubmission(opcode, nsid, cdw10, cdw11, cdw12, cdw13, cdw14, cdw15)]
      ensures r == Answer(old(submitted), NoDataSubmission(opcode, nsid, cdw10, cdw11, cdw12, cdw13, cdw14, cdw15), [])
    {
      var cmd := ZEROED;
      cmd := cmd.(opcode := opcode);
      cmd := cmd.(nsid := nsid);
      cmd := cmd.(cdw10 := cdw10, cdw11 := cdw11, cdw12 := cdw12);
      cmd := cmd.(cdw13 := cdw13, cdw14 := cdw14, cdw15 := cdw15);
      cmd := cmd.(timeoutMs := TIMEOUT_MS);
      r := SubmitAdminCmd(Submission(cmd, NoTransfer), []);
    }

    /** Identify Controller: opcode 0x06, CNS 1 in cdw10, into 4096 bytes. */
    method IdentifyController() returns (r: Result<seq<bv8>>)
      modifies this
      ensures submitted == old(submitted) + [IDENTIFY]
      ensures r == IdentifyAnswer(old(submitted))
      ensures r.Ok? ==> |r.value| == IDENTIFY_LEN
    {
      var done := AdminRead(0x06, 0, 1, 0, 0, 0, 0, 0, Zeros(IDENTIFY_LEN));
      if done.Err? {
        return Err(done.error);
      }
      r := Ok(done.value.buf);
    }

    function IdentifyAnswer(h: seq<Submission>): (r: Result<seq<bv8>>)
      ensures r.Ok? ==> |r.value| == IDENTIFY_LEN
    {
      match Answer(h, IDENTIFY, Zeros(IDENTIFY_LEN))
      case Err(e) => Err(e)
      case Ok(d) => Ok(d.buf)
    }
  }

  const IDENTIFY_LEN: nat := 4096
  const IDENTIFY := ReadSubmission(0x06, 0, 1, 0, 0, 0, 0, 0, IDENTIFY_LEN)

  lemma IdentifyCommand()
    ensures Carries(IDENTIFY.cmd, 0x06, 0, 1, 0, 0, 0, 0, 0) && IDENTIFY.cmd.dataLen == 4096
    ensures IDENTIFY.transfer == FromDevice
  {
  }

  /* ------------------------------------------------- Identify Controller */

  /** The fields of the Identify Controller data structure the tool uses. */
  datatype ControllerInfo = ControllerInfo(vid: uint16, ssvid: uint16, serial: string, model: string, firmware: string)

  /** PCI vendor id in bytes 1:0, subsystem vendor id in 3:2 (little-endian),
      serial number in 23:4, model number in 63:24, firmware revision in 71:64. */
  function ParseIdentify(data: seq<bv8>): (info: ControllerInfo)
    requires |data| == IDENTIFY_LEN
    ensures |info.serial| <= 20 && |info.model| <= 40 && |info.firmware| <= 8
  {
    var serial := data[4..24];
    var model := data[24..64];
    var firmware := data[64..72];
    assert |serial| == 20 && |model| == 40 && |firmware| == 8;
    ControllerInfo(Le16(data[0], data[1]), Le16(data[2], data[3]),
                   AsciiTrim(serial), AsciiTrim(model), AsciiTrim(firmware))
  }

  /** A structure whose string fields hold clean text, space-padded as the
      NVMe specification requires, yields exactly that text. */
  lemma ParseIdentifyReadsFields(data: seq<bv8>, serial: seq<bv8>, model: seq<bv8>, firmware: seq<bv8>)
    requires |data| == IDENTIFY_LEN
    requires |serial| <= 20 && |model| <= 40 && |firmware| <= 8
    requires IsCleanText(serial) && IsCleanText(model) && IsCleanText(firmware)
    requires data[4..24] == PadField(serial, 20)
    requires data[24..64] == PadField(model, 40)
    requires data[64..72] == PadField(firmware, 8)
    ensures ParseIdentify(data).serial == Text(serial)
    ensures ParseIdentify(data).model == Text(model)
    ensures ParseIdentify(data).firmware == Text(firmware)
  {
    PadFieldRoundTrip(serial, 20);
    PadFieldRoundTrip(model, 40);
    PadFieldRoundTrip(firmware, 8);
  }
}
