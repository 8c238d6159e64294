/** The deployed constants (ai_engine/config.py). */
module Config {
  import opened Evidence

  const ACC_THRESHOLD := 1.0
  const ACC_DECAY := 0.30
  const ACC_IOU_LINK := 0.30
  const ACC_EMA := 0.5
  const ACC_COOLDOWN := 60.0
  const MAX_FRAME_AGE_SECONDS := 2.0
  const MAX_FRAME_GAP_SECONDS := 0.5

  const DEPLOYED := Params(ACC_IOU_LINK, ACC_THRESHOLD, ACC_DECAY, ACC_EMA, ACC_COOLDOWN)
}
