/** Names of the generated speech files and the URL Twilio fetches them from. */
module AudioFiles {
  import opened PyText

  const AudioRoute := "/api/voice/audio/"

  /** Everything of the MP3 path before its ".mp3" extension. */
  function Stem(audioDir: string, callSid: string, suffix: string): string {
    audioDir + "/output/tts_" + callSid + "_" + suffix
  }

  /** `f"{AUDIO_DIR}/output/tts_{call_sid}_{suffix}.mp3"`, where `suffix` stands for the
      random `os.urandom(4).hex()`. */
  function Mp3Path(audioDir: string, callSid: string, suffix: string): string {
    Stem(audioDir, callSid, suffix) + ".mp3"
  }

  /** `mp3_path.replace(".mp3", ".wav")`. */
  function WavPath(mp3Path: string): string {
    Replace(mp3Path, ".mp3", ".wav")
  }

  /** `f"{base_url.rstrip('/')}/api/voice/audio/{os.path.basename(wav_path)}"`. */
  function AudioUrl(baseUrl: string, wavPath: string): (r: string)
    ensures |r| >= |AudioRoute|
  {
    RStripChar(baseUrl, '/') + AudioRoute + Basename(wavPath)
  }

  /** The file the audio route serves for `filename`. */
  function ServedPath(audioDir: string, filename: string): string {
    audioDir + "/output/" + filename
  }

  /** The WAV path always ends in ".wav": only occurrences of ".mp3" inside the stem are
      changed besides the extension. */
  lemma WavPathOfMp3(audioDir: string, callSid: string, suffix: string)
    ensures WavPath(Mp3Path(audioDir, callSid, suffix))
         == Replace(Stem(audioDir, callSid, suffix), ".mp3", ".wav") + ".wav"
  {
    ReplaceMp3Suffix(Stem(audioDir, callSid, suffix));
  }

  lemma StemJoin(audioDir: string, callSid: string, suffix: string)
    ensures Stem(audioDir, callSid, suffix) + ".wav" == (audioDir + "/output") + "/" + WavName(callSid, suffix)
  {
    assert "/output/tts_" == "/output" + "/" + "tts_";
  }

  lemma NameHasNoSlash(callSid: string, suffix: string)
    requires '/' !in callSid && '/' !in suffix
    ensures '/' !in WavName(callSid, suffix)
  {
    var name := WavName(callSid, suffix);
    forall i | 0 <= i < |name| ensures name[i] != '/' {
      if 4 <= i < 4 + |callSid| {
        assert name[i] == callSid[i - 4];
      } else if 5 + |callSid| <= i < 5 + |callSid| + |suffix| {
        assert name[i] == suffix[i - 5 - |callSid|];
      }
    }
  }

  /** The file name written for a call: `tts_{call_sid}_{suffix}.wav`. */
  function WavName(callSid: string, suffix: string): string {
    "tts_" + callSid + "_" + suffix + ".wav"
  }

  /** When the stem holds no ".mp3", the WAV file lies in the output directory under the
      expected name. */
  lemma WavPathIsServed(audioDir: string, callSid: string, suffix: string)
    requires !Contains(Stem(audioDir, callSid, suffix), ".mp3")
    ensures WavPath(Mp3Path(audioDir, callSid, suffix)) == ServedPath(audioDir, WavName(callSid, suffix))
  {
    WavPathOfMp3(audioDir, callSid, suffix);
    ReplaceWithoutMatch(Stem(audioDir, callSid, suffix), ".mp3", ".wav");
    StemJoin(audioDir, callSid, suffix);
  }

  /** When neither the call SID nor the suffix holds a '/' and the stem holds no ".mp3",
      the audio URL names the WAV file that was written, and the audio route serves exactly
      that file back. */
  lemma AudioUrlServesWav(baseUrl: string, audioDir: string, callSid: string, suffix: string)
    requires '/' !in callSid && '/' !in suffix
    requires !Contains(Stem(audioDir, callSid, suffix), ".mp3")
    ensures var wav := WavPath(Mp3Path(audioDir, callSid, suffix));
            && wav == ServedPath(audioDir, WavName(callSid, suffix))
            && AudioUrl(baseUrl, wav) == RStripChar(baseUrl, '/') + AudioRoute + WavName(callSid, suffix)
  {
    WavPathIsServed(audioDir, callSid, suffix);
    NameHasNoSlash(callSid, suffix);
    var name := WavName(callSid, suffix);
    assert ServedPath(audioDir, name) == (audioDir + "/output") + "/" + name by {
      assert "/output/" == "/output" + "/";
    }
    BasenameOfJoin(audioDir + "/output", WavName(callSid, suffix));
  }
}
