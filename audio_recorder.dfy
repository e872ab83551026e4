/** The recorder (utilities/AudioRecorder.kt). `AudioRecorder` and
    `WAVAudioRecorder` have the same fields and the same start/stop/cleanup
    logic and differ only in the MediaRecorder output settings and the file
    name prefix, so one class covers both, told apart by its `format`. The
    MediaRecorder is a value standing for the configured device; whether its
    prepare/start/stop calls succeed is passed in by the caller, as the
    device decides it. */
module Recording {
  import opened Wrappers
  import opened Text

  /** AudioRecorder writes THREE_GPP/AMR_NB; WAVAudioRecorder writes the
      DEFAULT format and encoder sampled at 22050 Hz. */
  datatype Format = ThreeGppAmrNb | DefaultAt22050Hz

  function FilePrefix(format: Format): string {
    match format
    case ThreeGppAmrNb => "recorded_audio_"
    case DefaultAt22050Hz => "audio_"
  }

  /** A `java.io.File`, identified by its path. */
  datatype File = File(path: string)

  /** `File(cacheDir, "<prefix><millis>.wav")`. */
  function OutputFileAt(format: Format, cacheDir: string, nowMs: nat): File {
    File(cacheDir + "/" + FilePrefix(format) + Decimal(nowMs) + ".wav")
  }

  /** Two recordings started at different milliseconds get different files. */
  lemma OutputFilesDistinct(format: Format, cacheDir: string, a: nat, b: nat)
    requires a != b
    ensures OutputFileAt(format, cacheDir, a) != OutputFileAt(format, cacheDir, b)
  {
    if OutputFileAt(format, cacheDir, a) == OutputFileAt(format, cacheDir, b) {
      FramedEqual(cacheDir + "/" + FilePrefix(format), Decimal(a), Decimal(b), ".wav");
      DecimalInjective(a, b);
    }
  }

  /** The two recorders never name the same file, whenever they start. */
  lemma RecordersNeverShareFiles(cacheDir: string, a: nat, b: nat)
    ensures OutputFileAt(ThreeGppAmrNb, cacheDir, a) != OutputFileAt(DefaultAt22050Hz, cacheDir, b)
  {
    var k := |cacheDir| + 1;
    assert OutputFileAt(ThreeGppAmrNb, cacheDir, a).path[k] == 'r';
    assert OutputFileAt(DefaultAt22050Hz, cacheDir, b).path[k] == 'a';
  }

  /** A MediaRecorder that has been configured to write `output`. */
  datatype Device = Device(format: Format, output: File)

  /** What the device does when started: prepare() and start() succeed;
      prepare() throws an IOException (caught by startRecording); or
      prepare() succeeds, creating the file, and start() throws a runtime
      exception, which startRecording does not catch. */
  datatype StartOutcome = Started | PrepareFails | StartFails

  /** Whether the device's stop() and release() return normally. */
  datatype StopOutcome = Stopped | StopFails

  /** startRecording's result: the file, `null`, or an escaping exception. */
  datatype StartResult = Began(file: File) | Null | Threw

  /** The files that exist on the device. */
  class FileStore {
    var files: set<File>

    constructor (files: set<File>)
      ensures this.files == files
    {
      this.files := files;
    }
  }

  class AudioRecorder {
    const format: Format
    const cacheDir: string
    const store: FileStore
    var mediaRecorder: Option<Device>
    var outputFile: Option<File>
    var isRecording: bool

    /** A recorder is marked as recording exactly when it holds a device, and
        it then has an output file. */
    ghost predicate Valid()
      reads this
    {
      (isRecording <==> mediaRecorder.Some?) && (isRecording ==> outputFile.Some?)
    }

    constructor (format: Format, cacheDir: string, store: FileStore)
      ensures Valid()
      ensures this.format == format && this.cacheDir == cacheDir && this.store == store
      ensures mediaRecorder == None && outputFile == None && !isRecording
    {
      this.format := format;
      this.cacheDir := cacheDir;
      this.store := store;
      mediaRecorder := None;
      outputFile := None;
      isRecording := false;
    }

    /** The recorder says it is recording exactly while it holds a device. */
    function IsRecording(): (r: bool)
      reads this
      requires Valid()
      ensures r <==> mediaRecorder.Some?
    {
      isRecording
    }

    /** stopRecording: with nothing recording it returns null and changes
        nothing; a successful stop releases the device, clears the flag and
        returns the output file; a failing stop returns null and leaves the
        recorder as it was, still marked as recording. */
    method StopRecording(device: StopOutcome) returns (r: Option<File>)
      requires Valid()
      modifies this
      ensures Valid()
      ensures outputFile == old(outputFile)
      ensures !old(isRecording) ==> r == None && unchanged(this)
      ensures old(isRecording) && device == Stopped ==>
        r == old(outputFile) && r.Some? && !isRecording && mediaRecorder == None
      ensures old(isRecording) && device == StopFails ==> r == None && unchanged(this)
    {
      if isRecording && mediaRecorder.Some? {
        if device == StopFails {
          return None;
        }
        mediaRecorder := None;
        isRecording := false;
        r := outputFile;
      } else {
        r := None;
      }
    }

    /** startRecording: stops a running session first, then points
        `outputFile` at a new file named after `nowMs` whatever follows; only
        a device that starts marks the recorder as recording and returns
        that file. */
    method StartRecording(nowMs: nat, device: StartOutcome, priorStop: StopOutcome) returns (r: StartResult)
      requires Valid()
      modifies this, store
      ensures Valid()
      ensures outputFile == Some(OutputFileAt(format, cacheDir, nowMs))
      ensures device == Started ==>
        && r == Began(OutputFileAt(format, cacheDir, nowMs))
        && isRecording
        && mediaRecorder == Some(Device(format, OutputFileAt(format, cacheDir, nowMs)))
      ensures device != Started ==>
        && r == (if device == PrepareFails then Null else Threw)
        && isRecording == (old(isRecording) && priorStop == StopFails)
        && mediaRecorder == (if old(isRecording) && priorStop == Stopped then None else old(mediaRecorder))
      ensures store.files == old(store.files) + (if device == PrepareFails then {} else {OutputFileAt(format, cacheDir, nowMs)})
    {
      if isRecording {
        var _ := StopRecording(priorStop);
      }
      var file := OutputFileAt(format, cacheDir, nowMs);
      outputFile := Some(file);
      match device {
        case PrepareFails =>
          return Null;
        case StartFails =>
          store.files := store.files + {file};
          return Threw;
        case Started =>
          store.files := store.files + {file};
          mediaRecorder := Some(Device(format, file));
          isRecording := true;
          return Began(file);
      }
    }

    /** cleanup: stops a running session, then deletes whatever `outputFile`
        refers to. */
    method Cleanup(device: StopOutcome)
      requires Valid()
      modifies this, store
      ensures Valid()
      ensures outputFile == old(outputFile)
      ensures isRecording == (old(isRecording) && device == StopFails)
      ensures mediaRecorder == (if old(isRecording) && device == Stopped then None else old(mediaRecorder))
      ensures store.files == old(store.files) - (if outputFile.Some? then {outputFile.value} else {})
    {
      if isRecording {
        var _ := StopRecording(device);
      }
      if outputFile.Some? {
        store.files := store.files - {outputFile.value};
      }
    }
  }

  /** A stop that fails followed by a start whose prepare() fails leaves the
      old device recording into the old file while `outputFile` names the
      new one: the next successful stop returns a file that was never
      written, and the written one is no longer referenced. */
  method StaleOutputAfterFailedStop(format: Format, cacheDir: string, t0: nat, t1: nat)
    returns (written: File, returned: Option<File>, onDisk: bool)
    requires t0 != t1
    ensures returned.Some? && returned.value != written && !onDisk
  {
    var store := new FileStore({});
    var recorder := new AudioRecorder(format, cacheDir, store);
    var first := recorder.StartRecording(t0, Started, Stopped);
    written := first.file;
    var none := recorder.StopRecording(StopFails);
    var second := recorder.StartRecording(t1, PrepareFails, StopFails);
    returned := recorder.StopRecording(Stopped);
    OutputFilesDistinct(format, cacheDir, t0, t1);
    onDisk := returned.value in store.files;
  }
}
